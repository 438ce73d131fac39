// Compaction replaces history records by tombstones and changes nothing else: identities, edges
// and every traversal's shape stay, protected records are untouched, and each tombstone keeps
// the generation and the old content identity.
module CompactSteps {
  import opened Types
  import opened Ordering
  import opened Digraph
  import opened GraphModel
  import opened StoreTypes
  import opened CurrentnessModel
  import opened CommitPipeline
  import opened Operations
  import opened Soundness
  import opened Admission
  import opened Evolution
  import opened Transition
  import opened LineageSteps
  import opened CommitCache
  import opened CommitSteps
  import opened CommitInvariants
  import opened RegistrySteps

  // ---------------------------------------------------------------------------------------
  // Exactly which records are replaced
  // ---------------------------------------------------------------------------------------

  predicate DistinctIds(keys: seq<Pair>) {
    forall i, j :: 0 <= i < j < |keys| ==> keys[i].1 != keys[j].1
  }

  function IdsOf(keys: seq<Pair>): set<nat> {
    set k | k in keys :: k.1
  }

  /** The graph with exactly these records replaced by their tombstones. */
  ghost predicate ReplacedExactly(env: Env, a: Authority, g: Graph, h: Graph, ids: set<nat>) {
    && h.edges == g.edges && h.nodes.Keys == g.nodes.Keys && ids <= g.nodes.Keys
    && forall id :: id in g.nodes ==>
         h.nodes[id] == if id in ids then Tombstone(env, g.nodes[id], a) else g.nodes[id]
  }

  ghost predicate TombstonesValid(env: Env, a: Authority, g: Graph, ids: set<nat>) {
    forall id :: id in ids && id in g.nodes ==> ValidateNode(Tombstone(env, g.nodes[id], a)) == Ok
  }

  lemma ReplaceOne(env: Env, a: Authority, g: Graph, key: Pair)
    requires WellFormed(g) && key.1 in g.nodes
    requires CompactNodeOutcome(g, key.1, Tombstone(env, g.nodes[key.1], a)) == Ok
    ensures
      var h := CompactNode(g, key.1, Tombstone(env, g.nodes[key.1], a));
      WellFormed(h) && ReplacedExactly(env, a, g, h, {key.1}) && TombstonesValid(env, a, g, {key.1})
  {
  }

  lemma ReplaceThen(env: Env, a: Authority, f: Graph, g: Graph, h: Graph, id: nat, ids: set<nat>)
    requires ReplacedExactly(env, a, f, g, {id}) && ReplacedExactly(env, a, g, h, ids) && id !in ids
    requires TombstonesValid(env, a, f, {id}) && TombstonesValid(env, a, g, ids)
    ensures ReplacedExactly(env, a, f, h, {id} + ids) && TombstonesValid(env, a, f, {id} + ids)
  {
    hide Tombstone, ValidateNode;
    forall k | k in {id} + ids && k in f.nodes ensures ValidateNode(Tombstone(env, f.nodes[k], a)) == Ok {
      if k != id {
        assert g.nodes[k] == f.nodes[k] && k in g.nodes;
      }
    }
  }

  predicate AllPresent(g: Graph, keys: seq<Pair>) {
    forall k :: k in keys ==> k.1 in g.nodes
  }

  /** Exactly the first records of the list are replaced, and all the budget allows if none is
      refused. */
  ghost predicate ReplacesFirst(env: Env, a: Authority, g: Graph, keys: seq<Pair>, budget: nat, done: Compaction) {
    && done.count <= |keys| && done.count <= budget
    && ReplacedExactly(env, a, g, done.graph, IdsOf(keys[..done.count]))
    && TombstonesValid(env, a, g, IdsOf(keys[..done.count]))
    && (done.refused == Ok ==> done.count == if |keys| < budget then |keys| else budget)
  }

  /** The candidates are replaced in order, as many as the budget allows, up to the first whose
      tombstone is not a valid record. */
  lemma {:induction false} CompactAllExact(env: Env, g: Graph, keys: seq<Pair>, budget: nat, a: Authority)
    requires WellFormed(g) && DistinctIds(keys) && AllPresent(g, keys)
    ensures ReplacesFirst(env, a, g, keys, budget, CompactAll(env, g, keys, budget, a))
    decreases |keys|
  {
    hide Tombstone, TombstonesValid, ReplacedExactly, ValidateNode, CompactNodeOutcome, CompactNode, WellFormed;
    if keys == [] || budget == 0 {
      NoneReplaced(env, a, g);
    } else {
      var id := keys[0].1;
      var tombstone := Tombstone(env, g.nodes[id], a);
      if CompactNodeOutcome(g, id, tombstone) != Ok {
        NoneReplaced(env, a, g);
      } else {
        var h := CompactNode(g, id, tombstone);
        ReplaceOne(env, a, g, keys[0]);
        ReplacedKeys(env, a, g, h, {id});
        CompactAllExact(env, h, keys[1..], budget - 1, a);
        var done := CompactAll(env, g, keys, budget, a);
        var rest := keys[1..][..done.count - 1];
        assert keys[..done.count] == [keys[0]] + rest;
        IdsOfCons(keys[0], rest);
        assert id !in IdsOf(rest);
        ReplaceThen(env, a, g, h, done.graph, id, IdsOf(rest));
      }
    }
  }

  lemma NoneReplaced(env: Env, a: Authority, g: Graph)
    ensures ReplacedExactly(env, a, g, g, IdsOf([])) && TombstonesValid(env, a, g, IdsOf([]))
  {
  }

  lemma ReplacedKeys(env: Env, a: Authority, g: Graph, h: Graph, ids: set<nat>)
    requires ReplacedExactly(env, a, g, h, ids)
    ensures h.nodes.Keys == g.nodes.Keys && h.edges == g.edges
  {
  }

  lemma IdsOfCons(key: Pair, keys: seq<Pair>)
    ensures IdsOf([key] + keys) == {key.1} + IdsOf(keys)
  {
  }

  /** What one compaction run replaced. */
  ghost function Doomed(env: Env, lin: Lineage, a: Authority, options: CompactOptions): set<nat> {
    var keys := SortedPairs(Candidates(env, lin, options));
    var n := CompactLineage(env, lin, a, options).count;
    IdsOf(if n <= |keys| then keys[..n] else keys)
  }

  predicate AreCandidates(g: Graph, keys: seq<Pair>) {
    forall k :: k in keys ==> k.1 in g.nodes && k.0 == g.nodes[k.1].core.generation && IsHistoryRecord(g.nodes[k.1])
  }

  lemma CandidateKeys(env: Env, lin: Lineage, options: CompactOptions)
    ensures
      var keys := SortedPairs(Candidates(env, lin, options));
      DistinctIds(keys) && AllPresent(lin.graph, keys) && AreCandidates(lin.graph, keys)
  {
    hide Protected, IsHistoryRecord;
    var keys := SortedPairs(Candidates(env, lin, options));
    assert AreCandidates(lin.graph, keys);
    forall i, j | 0 <= i < j < |keys| ensures keys[i].1 != keys[j].1 {
      assert keys[i] in keys && keys[j] in keys;
      assert Before(keys[i], keys[j]);
    }
  }

  ghost predicate OnlyHistory(env: Env, lin: Lineage, options: CompactOptions, ids: set<nat>) {
    forall id :: id in ids ==>
      id in lin.graph.nodes && IsHistoryRecord(lin.graph.nodes[id]) && id !in Protected(env, lin, options)
  }

  /** A compaction replaces exactly the doomed records, all of them unprotected history. */
  lemma CompactLineageExact(env: Env, lin: Lineage, a: Authority, options: CompactOptions)
    requires WellFormed(lin.graph)
    ensures
      var done := CompactLineage(env, lin, a, options);
      var ids := Doomed(env, lin, a, options);
      && ReplacedExactly(env, a, lin.graph, done.graph, ids)
      && TombstonesValid(env, a, lin.graph, ids)
      && OnlyHistory(env, lin, options, ids)
      && |ids| == done.count
  {
    hide Protected, IsHistoryRecord, Tombstone, TombstonesValid, ReplacedExactly, CompactAll, WellFormed;
    var keys := SortedPairs(Candidates(env, lin, options));
    CandidateKeys(env, lin, options);
    CompactAllExact(env, lin.graph, keys, CompactionBudget(env, options), a);
    var done := CompactLineage(env, lin, a, options);
    IdsOfSize(keys[..done.count]);
    forall id | id in Doomed(env, lin, a, options)
      ensures id in lin.graph.nodes && IsHistoryRecord(lin.graph.nodes[id]) && id !in Protected(env, lin, options)
    {
      var k :| k in keys[..done.count] && k.1 == id;
      assert k in keys;
    }
  }

  lemma {:induction false} IdsOfSize(keys: seq<Pair>)
    requires DistinctIds(keys)
    ensures |IdsOf(keys)| == |keys|
    decreases |keys|
  {
    if keys != [] {
      assert keys == [keys[0]] + keys[1..];
      IdsOfCons(keys[0], keys[1..]);
      IdsOfSize(keys[1..]);
      assert keys[0].1 !in IdsOf(keys[1..]);
    }
  }

  // ---------------------------------------------------------------------------------------
  // Shape
  // ---------------------------------------------------------------------------------------

  /** A traversal's answer without the records: identities with distances, and the edges. */
  ghost predicate SameShape(r: TraversalResult, r': TraversalResult) {
    && |r'.nodes| == |r.nodes|
    && (forall i :: 0 <= i < |r.nodes| ==>
          r'.nodes[i].node.id == r.nodes[i].node.id && r'.nodes[i].depth == r.nodes[i].depth)
    && |r'.edges| == |r.edges|
    && (forall i :: 0 <= i < |r.edges| ==> r'.edges[i].id == r.edges[i].id)
    && r'.maxDepthReached == r.maxDepthReached
  }

  function Positions(r: seq<TraversalEntry>): seq<Pair> {
    seq(|r|, i requires 0 <= i < |r| => (r[i].depth, r[i].node.id))
  }

  lemma {:induction false} AscendingPairsUnique(a: seq<Pair>, b: seq<Pair>)
    requires AscendingPairs(a) && AscendingPairs(b)
    requires forall x :: x in a <==> x in b
    ensures a == b
    decreases |a|
  {
    if a == [] {
      NonEmptyHasMember(b);
    } else {
      assert a[0] in b && b[0] in a;
      assert a[0] == b[0];
      forall x ensures x in a[1..] <==> x in b[1..] {
        assert x in a <==> x in b;
        if x in a[1..] {
          assert x != a[0];
        }
        if x in b[1..] {
          assert x != b[0];
        }
      }
      AscendingPairsUnique(a[1..], b[1..]);
    }
  }

  lemma PositionsInclude(g: Graph, h: Graph, arcs: Arcs, origin: nat, depth: nat,
                         r: seq<TraversalEntry>, r': seq<TraversalEntry>, x: Pair)
    requires ExactNodes(g, arcs, origin, depth, r) && ExactNodes(h, arcs, origin, depth, r')
    ensures x in Positions(r) ==> x in Positions(r')
  {
    hide Ball;
    if x in Positions(r) {
      var i :| 0 <= i < |r| && x == (r[i].depth, r[i].node.id);
      BallGrows(arcs, origin, r[i].depth, depth);
      assert r[i].node.id in Ball(arcs, origin, depth);
      var j :| 0 <= j < |r'| && r'[j].node.id == r[i].node.id;
      DistanceUnique(arcs, origin, r[i].node.id, r[i].depth, r'[j].depth);
      assert Positions(r')[j] == x;
    }
  }

  /** The exact answer over the same arcs is determined up to the records themselves. */
  lemma ExactNodesUnique(g: Graph, h: Graph, arcs: Arcs, origin: nat, depth: nat,
                         r: seq<TraversalEntry>, r': seq<TraversalEntry>)
    requires ExactNodes(g, arcs, origin, depth, r) && ExactNodes(h, arcs, origin, depth, r')
    ensures Positions(r) == Positions(r')
  {
    hide ExactNodes;
    forall x ensures x in Positions(r) <==> x in Positions(r') {
      PositionsInclude(g, h, arcs, origin, depth, r, r', x);
      PositionsInclude(h, g, arcs, origin, depth, r', r, x);
    }
    PositionsAscend(g, arcs, origin, depth, r);
    PositionsAscend(h, arcs, origin, depth, r');
    AscendingPairsUnique(Positions(r), Positions(r'));
  }

  lemma PositionsAscend(g: Graph, arcs: Arcs, origin: nat, depth: nat, r: seq<TraversalEntry>)
    requires ExactNodes(g, arcs, origin, depth, r)
    ensures AscendingPairs(Positions(r))
  {
    hide AtDistance, Ball;
  }

  function EdgeIdsOf(r: seq<Edge>): seq<nat> {
    seq(|r|, i requires 0 <= i < |r| => r[i].id)
  }

  lemma InducedEdgesUnique(edges: map<nat, Edge>, ids: set<nat>, frame: set<nat>, r: seq<Edge>, r': seq<Edge>)
    requires InducedEdges(edges, ids, frame, r) && InducedEdges(edges, ids, frame, r')
    ensures EdgeIdsOf(r) == EdgeIdsOf(r')
  {
    var all := set e | e in ids && e in edges && edges[e].from in frame && edges[e].to in frame;
    forall e ensures e in all <==> e in EdgeIdsOf(r) {
      if e in all {
        var i :| 0 <= i < |r| && r[i].id == e;
        assert EdgeIdsOf(r)[i] == e;
      }
    }
    forall e ensures e in all <==> e in EdgeIdsOf(r') {
      if e in all {
        var i :| 0 <= i < |r'| && r'[i].id == e;
        assert EdgeIdsOf(r')[i] == e;
      }
    }
    EnumerationUnique(EdgeIdsOf(r), EdgeIdsOf(r'), all);
  }

  /** Replacing records leaves every traversal's shape unchanged, in either direction, under
      every edge filter. */
  lemma TraversalShapeKept(g: Graph, h: Graph, d: Direction, keep: EdgeTypeFilter, origin: nat, depth: nat,
                           r: TraversalResult, r': TraversalResult)
    requires h.edges == g.edges
    requires ExactTraversal(g, FilteredArcs(g, d, keep), origin, depth, r)
    requires ExactTraversal(h, FilteredArcs(h, d, keep), origin, depth, r')
    ensures SameShape(r, r')
  {
    hide ExactNodes, InducedEdges, Ball;
    var arcs := FilteredArcs(g, d, keep);
    assert FilteredArcs(h, d, keep) == arcs;
    ExactNodesUnique(g, h, arcs, origin, depth, r.nodes, r'.nodes);
    InducedEdgesUnique(g.edges, g.edges.Keys, Ball(arcs, origin, depth), r.edges, r'.edges);
    assert Positions(r.nodes) == Positions(r'.nodes) && EdgeIdsOf(r.edges) == EdgeIdsOf(r'.edges);
    forall i | 0 <= i < |r.nodes|
      ensures r'.nodes[i].node.id == r.nodes[i].node.id && r'.nodes[i].depth == r.nodes[i].depth
    {
      assert Positions(r.nodes)[i] == Positions(r'.nodes)[i];
    }
    forall i | 0 <= i < |r.edges| ensures r'.edges[i].id == r.edges[i].id {
      assert EdgeIdsOf(r.edges)[i] == EdgeIdsOf(r'.edges)[i];
    }
    SameGreatestDepth(r.nodes, r'.nodes, r.maxDepthReached, r'.maxDepthReached);
  }

  lemma SameGreatestDepth(r: seq<TraversalEntry>, r': seq<TraversalEntry>, d: nat, d': nat)
    requires |r| == |r'| && forall i :: 0 <= i < |r| ==> r'[i].depth == r[i].depth
    requires GreatestDepth(r, d) && GreatestDepth(r', d')
    ensures d == d'
  {
    var i :| 0 <= i < |r| && r[i].depth == d;
    var j :| 0 <= j < |r'| && r'[j].depth == d';
    assert r'[i].depth == d && r[j].depth == d';
  }

  // ---------------------------------------------------------------------------------------
  // What a tombstone keeps
  // ---------------------------------------------------------------------------------------

  /** A tombstone keeps the record's identity, lineage, generation and the digest of its old core,
      and is not history any more. */
  lemma TombstoneKeeps(env: Env, n: Node, a: Authority)
    requires n.core.kind != CompactedSummary && n.id == env.NodeId(n.core)
    ensures
      var t := Tombstone(env, n, a);
      && t.id == n.id && t.core.lineage == n.core.lineage && t.core.generation == n.core.generation
      && t.core.compacted == Some(n.id) && !IsHistoryRecord(t) && !IsLive(t.lifecycle)
      && t.currentness == HistoricalOnly
  {
  }

  lemma HistoryShrinks(env: Env, a: Authority, g: Graph, h: Graph, ids: set<nat>)
    requires ReplacedExactly(env, a, g, h, ids) && ids <= HistoryRecords(g)
    ensures HistoryRecords(h) == HistoryRecords(g) - ids
    ensures |HistoryRecords(h)| == |HistoryRecords(g)| - |ids|
    ensures h.nodes.Keys == g.nodes.Keys && h.edges == g.edges
  {
    assert HistoryRecords(g) == (HistoryRecords(g) - ids) + ids;
  }

  // ---------------------------------------------------------------------------------------
  // The invariant
  // ---------------------------------------------------------------------------------------

  lemma TombstoneSound(env: Env, lid: nat, attempts: set<AttemptKey>, n: Node, a: Authority)
    requires NodeSound(env, lid, attempts, n) && ValidateNode(Tombstone(env, n, a)) == Ok
    ensures NodeSound(env, lid, attempts, Tombstone(env, n, a))
  {
    hide HasOrigin;
  }

  lemma ReplacedGraphSound(env: Env, lid: nat, attempts: set<AttemptKey>, a: Authority, g: Graph, h: Graph,
                           ids: set<nat>)
    requires GraphSound(env, lid, attempts, g) && ReplacedExactly(env, a, g, h, ids) && TombstonesValid(env, a, g, ids)
    ensures GraphSound(env, lid, attempts, h)
  {
    hide NodeSound, ValidateNode, EdgeSound, Acyclic, EdgeArcs;
    ArcsOfSameEdges(g, h);
    forall id | id in h.nodes ensures NodeSound(env, lid, attempts, h.nodes[id]) {
      if id in ids {
        TombstoneSound(env, lid, attempts, g.nodes[id], a);
      }
    }
    forall id | id in h.nodes ensures h.nodes[id].id == id && id != 0 {
      assert g.nodes[id].id == id;
    }
  }

  lemma ReplacedSingleLive(env: Env, st: LineageState, a: Authority, g: Graph, h: Graph, ids: set<nat>,
                           st': LineageState)
    requires SingleLive(st, g) && ReplacedExactly(env, a, g, h, ids)
    requires st.currentNode !in ids && SamePosition(st, st')
    ensures SingleLive(st', h)
  {
    forall id | id in h.nodes ensures RouteStateWithin(st', h.nodes[id]) && Displaced(st', h.nodes[id]) {
      assert RouteStateWithin(st, g.nodes[id]) && Displaced(st, g.nodes[id]);
    }
  }

  /** The fields a compaction may change. */
  predicate SameButCounters(st: LineageState, st': LineageState) {
    && st' == st.(
         lineageGeneration := st'.lineageGeneration, nodeCount := st'.nodeCount, edgeCount := st'.edgeCount,
         compactedCount := st'.compactedCount, historyCount := st'.historyCount)
    && st'.lineageGeneration >= st.lineageGeneration
  }

  /** The lineage after a compaction: the records replaced, the state's position unchanged. */
  ghost predicate CompactedLineage(env: Env, lin: Lineage, lin': Lineage, a: Authority, ids: set<nat>) {
    && ReplacedExactly(env, a, lin.graph, lin'.graph, ids) && TombstonesValid(env, a, lin.graph, ids)
    && ids <= HistoryRecords(lin.graph) && lin.state.currentNode !in ids
    && lin'.attempts == lin.attempts && SameButCounters(lin.state, lin'.state)
  }

  lemma CompactedLineageSound(env: Env, lid: nat, lin: Lineage, lin': Lineage, a: Authority, ids: set<nat>)
    requires LineageSound(env, lid, lin) && CompactedLineage(env, lin, lin', a, ids) && CountsExact(lin')
    ensures LineageSound(env, lid, lin')
  {
    hide GraphSound, LedgerSound, CountsExact, TombstonesValid, Tombstone, HistoryRecords;
    ReplacedGraphSound(env, lid, lin.attempts.Keys, a, lin.graph, lin'.graph, ids);
    SameLedger(lin, lin');
  }

  /** What compaction left of a record is the record itself or a dead tombstone of it. */
  ghost predicate ItselfOrDead(g: Graph, h: Graph, id: nat) {
    id in h.nodes ==>
      && id in g.nodes
      && (h.nodes[id] == g.nodes[id] || (!IsLive(h.nodes[id].lifecycle) && h.nodes[id].currentness == HistoricalOnly))
  }

  lemma CompactedRecord(env: Env, lin: Lineage, lin': Lineage, a: Authority, ids: set<nat>, id: nat)
    requires CompactedLineage(env, lin, lin', a, ids)
    ensures ItselfOrDead(lin.graph, lin'.graph, id)
  {
    hide TombstonesValid, HistoryRecords;
  }

  lemma SameStandingRecomputes(st: LineageState, st': LineageState, n: Node, m: Watermarks, p: Registry)
    requires st'.lifecycle == st.lifecycle && st'.generation == st.generation
    ensures Recomputed(st', n, m, p) == Recomputed(st, n, m, p)
  {
  }

  /** The store with one lineage compacted; the store generation may have advanced. */
  ghost predicate CompactedStore(env: Env, s: Store, s': Store, lid: nat, a: Authority, ids: set<nat>) {
    && lid in s.lineages && lid in s'.lineages
    && s' == WithLineage(s, lid, LineageAt(s', lid)).(marks := s.marks.(store := s'.marks.store))
    && CompactedLineage(env, LineageAt(s, lid), LineageAt(s', lid), a, ids)
  }

  lemma CompactedStoreSound(env: Env, s: Store, s': Store, lid: nat, a: Authority, ids: set<nat>)
    requires Sound(env, s) && CompactedStore(env, s, s', lid, a, ids) && CountsExact(LineageAt(s', lid))
    ensures Sound(env, s')
  {
    hide LineageSound, TombstonesValid, Tombstone, HistoryRecords, CountsExact;
    CompactedLineageSound(env, lid, LineageAt(s, lid), LineageAt(s', lid), a, ids);
    assert s'.lineages[lid].graph.nodes.Keys == s.lineages[lid].graph.nodes.Keys;
    forall l, id | l in s'.lineages && id in s'.lineages[l].graph.nodes
      ensures id in s'.indexes.owner && s'.indexes.owner[id] == l
    {
      assert id in s.lineages[l].graph.nodes.Keys;
    }
  }

  lemma CompactedPlaced(env: Env, s: Store, s': Store, lid: nat, a: Authority, ids: set<nat>)
    requires CompactedStore(env, s, s', lid, a, ids)
    ensures Placed(s) ==> Placed(s')
    ensures RoutesDistinct(s) ==> RoutesDistinct(s')
  {
    hide TombstonesValid, Tombstone, HistoryRecords, SingleLive;
    if Placed(s) {
      assert LineagePlaced(s, s.lineages[lid]);
      ReplacedSingleLive(env, s.lineages[lid].state, a, s.lineages[lid].graph, s'.lineages[lid].graph, ids,
                         s'.lineages[lid].state);
      forall l | l in s'.lineages ensures LineagePlaced(s', s'.lineages[l]) {
        assert LineagePlaced(s, s.lineages[l]);
        assert s'.lineages[l].graph.nodes.Keys == s.lineages[l].graph.nodes.Keys;
      }
    }
  }

  lemma CompactedTracked(env: Env, s: Store, s': Store, lid: nat, a: Authority, ids: set<nat>, l: nat, id: nat)
    requires AllTracked(s) && CompactedStore(env, s, s', lid, a, ids)
    ensures TrackedAt(s', l, id)
  {
    hide CompactedLineage, Reachable, NotAhead;
    if l in s'.lineages && id in s'.lineages[l].graph.nodes {
      if l == lid {
        CompactedRecord(env, s.lineages[lid], s'.lineages[lid], a, ids, id);
      }
      var n := s'.lineages[l].graph.nodes[id];
      if IsLive(n.lifecycle) {
        assert Tracked(s, n);
        GenerationTracked(s, s', s.lineages[l].state, n);
      }
    }
  }

  lemma CompactedAgreesAt(env: Env, s: Store, s': Store, lid: nat, a: Authority, ids: set<nat>, id: nat)
    requires CacheAgrees(s) && CompactedStore(env, s, s', lid, a, ids)
    requires LineageAt(s', lid).state.lifecycle != RetiredLineage
    ensures AgreesAt(LineageAt(s', lid).state, LineageAt(s', lid).graph, s'.marks, s'.publishers, id)
  {
    hide ReplacedExactly, TombstonesValid, Compute, HistoryRecords;
    var lin, lin' := s.lineages[lid], s'.lineages[lid];
    CompactedRecord(env, lin, lin', a, ids, id);
    if id in lin'.graph.nodes {
      var st, st', n := lin.state, lin'.state, lin'.graph.nodes[id];
      var liveness := LivenessOf(s.publishers, PublisherOf(n));
      StoreMarkIrrelevant(st', n, s.marks, s'.marks, liveness);
      SameStandingRecomputes(st, st', n, s.marks, s.publishers);
      if n == lin.graph.nodes[id] {
        assert Agrees(st, n, s.marks, s.publishers);
      }
      if !IsLive(n.lifecycle) {
        DeadIsHistorical(st', n, s.marks, liveness);
      }
    }
  }

  lemma CompactedAgrees(env: Env, s: Store, s': Store, lid: nat, a: Authority, ids: set<nat>)
    requires CacheAgrees(s) && CompactedStore(env, s, s', lid, a, ids)
    ensures LineageAgrees(LineageAt(s', lid), s'.marks, s'.publishers)
  {
    hide CompactedStore, Agrees;
    var lin' := LineageAt(s', lid);
    forall id | id in lin'.graph.nodes && lin'.state.lifecycle != RetiredLineage
      ensures Agrees(lin'.state, lin'.graph.nodes[id], s'.marks, s'.publishers)
    {
      CompactedAgreesAt(env, s, s', lid, a, ids, id);
      assert AgreesAt(lin'.state, lin'.graph, s'.marks, s'.publishers, id);
    }
  }

  lemma CompactedStoreInvariant(env: Env, s: Store, s': Store, lid: nat, a: Authority, ids: set<nat>)
    requires Invariant(env, s) && CompactedStore(env, s, s', lid, a, ids) && CountsExact(LineageAt(s', lid))
    ensures Invariant(env, s')
  {
    hide Sound, Placed, Tracked, LineageAgrees, CompactedLineage, CacheAgrees, CountsExact, RoutesDistinct;
    CompactedStoreSound(env, s, s', lid, a, ids);
    CompactedPlaced(env, s, s', lid, a, ids);
    forall l, id | l in s'.lineages && id in s'.lineages[l].graph.nodes
      ensures Tracked(s', s'.lineages[l].graph.nodes[id])
    {
      CompactedTracked(env, s, s', lid, a, ids, l, id);
      assert TrackedAt(s', l, id);
    }
    forall l | l in s'.lineages ensures LineageAgrees(LineageAt(s', l), s'.marks, s'.publishers) {
      if l == lid {
        CompactedAgrees(env, s, s', lid, a, ids);
      } else {
        CacheAgreesAt(s, l);
        SameRegistryAgrees(s.lineages[l], s.marks, s'.marks, s.publishers);
      }
    }
    CacheAgreesFrom(s');
  }

  lemma LineageAfterIs(lin: Lineage, done: Compaction)
    ensures
      var lin' := LineageAfter(lin, done);
      && lin'.graph == done.graph && lin'.attempts == lin.attempts && SameButCounters(lin.state, lin'.state)
      && (done.refused == Ok ==> CountsExact(lin'))
      && (done.refused != Ok ==> lin' == lin.(graph := done.graph))
  {
    hide HistoryRecords;
  }

  lemma AfterCompactionAt(s: Store, lid: nat, done: Compaction)
    ensures
      var s' := AfterCompaction(s, lid, done).store;
      && lid in s'.lineages && LineageAt(s', lid) == LineageAfter(LineageAt(s, lid), done)
      && s' == WithLineage(s, lid, LineageAt(s', lid)).(marks := s.marks.(store := s'.marks.store))
  {
    hide LineageAfter;
  }

  lemma ProtectsCurrent(env: Env, lin: Lineage, options: CompactOptions, ids: set<nat>)
    requires OnlyHistory(env, lin, options, ids)
    ensures lin.state.currentNode !in ids && ids <= HistoryRecords(lin.graph)
  {
    hide RetainedAncestry, IsHistoryRecord;
  }

  /** Compaction, whole or stopped at an unusable tombstone, is a compaction of one lineage. */
  lemma CompactIsCompaction(env: Env, s: Store, lid: nat, a: Authority, options: CompactOptions)
    requires lid in s.lineages && WellFormed(LineageAt(s, lid).graph)
    ensures
      var s' := Compact(env, s, lid, a, options).store;
      s' == s || CompactedStore(env, s, s', lid, a, Doomed(env, LineageAt(s, lid), a, options))
  {
    hide CompactLineage, TombstonesValid, ReplacedExactly, Doomed, HistoryRecords, WellFormed, OnlyHistory,
      AfterCompaction, LineageAfter, LivenessOf, Authority.HasIdentity, Scope.Permits, SameButCounters, CountsExact,
      LineageAt;
    var lin := LineageAt(s, lid);
    CompactLineageExact(env, lin, a, options);
    ProtectsCurrent(env, lin, options, Doomed(env, lin, a, options));
    AfterCompactionAt(s, lid, CompactLineage(env, lin, a, options));
    LineageAfterIs(lin, CompactLineage(env, lin, a, options));
  }

  /** A refused compaction changed nothing, so the counters are exact again. */
  lemma CompactCounts(env: Env, s: Store, lid: nat, a: Authority, options: CompactOptions)
    requires env.CollisionFree() && lid in s.lineages && LineageSound(env, lid, LineageAt(s, lid))
    ensures CountsExact(LineageAt(Compact(env, s, lid, a, options).store, lid))
  {
    hide CompactLineage, LineageSound, AfterCompaction, LineageAfter, LivenessOf, Scope.Permits, SameButCounters,
      CountsExact, StartsUndated, Candidates, Env.CollisionFree, LineageAt;
    var lin, done := LineageAt(s, lid), CompactLineage(env, LineageAt(s, lid), a, options);
    AfterCompactionAt(s, lid, done);
    LineageAfterIs(lin, done);
    SoundParts(env, lid, lin);
    if a.HasIdentity() {
      CompactionBlockedExactly(env, lid, lin, a, options);
    }
  }

  lemma CompactKeepsSound(env: Env, s: Store, lid: nat, a: Authority, options: CompactOptions)
    requires env.CollisionFree() && Sound(env, s)
    ensures Sound(env, Compact(env, s, lid, a, options).store)
  {
    hide Sound, LineageSound, CompactLineage, AfterCompaction, CompactedStore, Doomed, CountsExact, Env.CollisionFree;
    if lid in s.lineages {
      var s' := Compact(env, s, lid, a, options).store;
      SoundLineage(env, s, lid);
      SoundIsWellFormed(env, lid, LineageAt(s, lid));
      CompactIsCompaction(env, s, lid, a, options);
      CompactCounts(env, s, lid, a, options);
      if s' != s {
        CompactedStoreSound(env, s, s', lid, a, Doomed(env, LineageAt(s, lid), a, options));
      }
    }
  }

  lemma CompactKeepsPlaced(env: Env, s: Store, lid: nat, a: Authority, options: CompactOptions)
    requires Sound(env, s)
    ensures Placed(s) ==> Placed(Compact(env, s, lid, a, options).store)
    ensures RoutesDistinct(s) ==> RoutesDistinct(Compact(env, s, lid, a, options).store)
  {
    hide Sound, LineageSound, CompactLineage, AfterCompaction, CompactedStore, Doomed, Placed, RoutesDistinct;
    if lid in s.lineages {
      var s' := Compact(env, s, lid, a, options).store;
      SoundLineage(env, s, lid);
      SoundIsWellFormed(env, lid, LineageAt(s, lid));
      CompactIsCompaction(env, s, lid, a, options);
      if s' != s {
        CompactedPlaced(env, s, s', lid, a, Doomed(env, LineageAt(s, lid), a, options));
      }
    }
  }

  lemma CompactKeepsInvariant(env: Env, s: Store, lid: nat, a: Authority, options: CompactOptions)
    requires env.CollisionFree() && Invariant(env, s)
    ensures Invariant(env, Compact(env, s, lid, a, options).store)
  {
    hide LineageSound, Placed, AllTracked, CacheAgrees, CompactLineage, AfterCompaction, CompactedStore, Doomed,
      CountsExact, Env.CollisionFree;
    if lid in s.lineages {
      var s' := Compact(env, s, lid, a, options).store;
      SoundIsWellFormed(env, lid, LineageAt(s, lid));
      CompactIsCompaction(env, s, lid, a, options);
      CompactCounts(env, s, lid, a, options);
      if s' != s {
        CompactedStoreInvariant(env, s, s', lid, a, Doomed(env, LineageAt(s, lid), a, options));
      }
    }
  }

  // ---------------------------------------------------------------------------------------
  // The whole operation
  // ---------------------------------------------------------------------------------------

  /** A tombstone is a valid record exactly when the record it replaces has a generation. */
  lemma TombstoneValidExactly(env: Env, n: Node, a: Authority)
    requires n.core.lineage != 0 && a.HasIdentity()
    ensures ValidateNode(Tombstone(env, n, a)) == (if n.core.generation == 0 then InvalidDerivation else Ok)
  {
  }

  lemma {:induction false} CompactAllSucceeds(env: Env, g: Graph, keys: seq<Pair>, budget: nat, a: Authority)
    requires WellFormed(g) && DistinctIds(keys) && AllPresent(g, keys) && TombstonesValid(env, a, g, IdsOf(keys))
    ensures CompactAll(env, g, keys, budget, a).refused == Ok
    decreases |keys|
  {
    hide ValidateNode;
    if keys != [] && budget != 0 {
      var id := keys[0].1;
      assert keys[0] in keys && id in IdsOf(keys);
      var h := CompactNode(g, id, Tombstone(env, g.nodes[id], a));
      forall k | k in IdsOf(keys[1..]) && k in h.nodes ensures ValidateNode(Tombstone(env, h.nodes[k], a)) == Ok {
        assert k in IdsOf(keys) && k != id;
      }
      CompactAllSucceeds(env, h, keys[1..], budget - 1, a);
    }
  }

  /** The candidates come oldest generation first, and the first is blocked by a missing generation. */
  predicate StartsUndated(keys: seq<Pair>) {
    keys != [] && keys[0].0 == 0
  }

  lemma OldestFirst(env: Env, lin: Lineage, options: CompactOptions, k: Pair)
    requires k in SortedPairs(Candidates(env, lin, options)) && k.0 == 0
    ensures StartsUndated(SortedPairs(Candidates(env, lin, options)))
  {
    hide Candidates;
    var keys := SortedPairs(Candidates(env, lin, options));
    var i :| 0 <= i < |keys| && keys[i] == k;
    assert i > 0 ==> Before(keys[0], keys[i]);
  }

  /** A tombstone of a sound record is refused exactly when the record has no generation. */
  lemma TombstoneRefused(env: Env, lid: nat, lin: Lineage, a: Authority, id: nat)
    requires LineageSound(env, lid, lin) && id in lin.graph.nodes && lid != 0 && a.HasIdentity()
    ensures
      var n := lin.graph.nodes[id];
      var o := if n.core.generation == 0 then InvalidDerivation else Ok;
      ValidateNode(Tombstone(env, n, a)) == o && CompactNodeOutcome(lin.graph, id, Tombstone(env, n, a)) == o
  {
    hide LineageSound, ValidateNode, CanonCore;
    TargetSound(env, lid, lin, id);
    TombstoneValidExactly(env, lin.graph.nodes[id], a);
  }

  lemma UndatedStops(env: Env, lid: nat, lin: Lineage, keys: seq<Pair>, budget: nat, a: Authority)
    requires LineageSound(env, lid, lin) && lid != 0 && a.HasIdentity() && AreCandidates(lin.graph, keys)
    requires StartsUndated(keys) && budget > 0
    ensures CompactAll(env, lin.graph, keys, budget, a) == Compaction(lin.graph, 0, InvalidDerivation)
  {
    hide LineageSound, CompactNodeOutcome, Tombstone, CompactNode, IsHistoryRecord;
    assert keys[0] in keys;
    TombstoneRefused(env, lid, lin, a, keys[0].1);
  }

  lemma DatedAreValid(env: Env, lid: nat, lin: Lineage, options: CompactOptions, a: Authority)
    requires LineageSound(env, lid, lin) && lid != 0 && a.HasIdentity()
    requires !StartsUndated(SortedPairs(Candidates(env, lin, options)))
    ensures TombstonesValid(env, a, lin.graph, IdsOf(SortedPairs(Candidates(env, lin, options))))
  {
    hide LineageSound, Tombstone, ValidateNode, CompactNodeOutcome, Candidates, IsHistoryRecord, Authority.HasIdentity,
      StartsUndated;
    var keys := SortedPairs(Candidates(env, lin, options));
    CandidateKeys(env, lin, options);
    forall id | id in IdsOf(keys) ensures ValidateNode(Tombstone(env, lin.graph.nodes[id], a)) == Ok {
      var k :| k in keys && k.1 == id;
      if k.0 == 0 {
        OldestFirst(env, lin, options, k);
      }
      TombstoneRefused(env, lid, lin, a, id);
    }
  }

  /** Candidates are taken oldest generation first, so one candidate without a generation (an
      administrative record or declaration) blocks the whole compaction, and nothing else does. */
  lemma CompactionBlockedExactly(env: Env, lid: nat, lin: Lineage, a: Authority, options: CompactOptions)
    requires env.CollisionFree() && LineageSound(env, lid, lin) && a.HasIdentity()
    ensures
      var keys := SortedPairs(Candidates(env, lin, options));
      var done := CompactLineage(env, lin, a, options);
      && (done.refused != Ok <==> CompactionBudget(env, options) > 0 && StartsUndated(keys))
      && (done.refused != Ok ==> done == Compaction(lin.graph, 0, InvalidDerivation))
  {
    hide LineageSound, TombstonesValid, WellFormed, Env.CollisionFree, Candidates, CompactAll, DistinctIds, AllPresent,
      AreCandidates, StartsUndated, Authority.HasIdentity, SortedPairs, CompactionBudget;
    var g, keys, budget := lin.graph, SortedPairs(Candidates(env, lin, options)), CompactionBudget(env, options);
    SoundIsWellFormed(env, lid, lin);
    LineageIdNonZero(env, lid, lin);
    CandidateKeys(env, lin, options);
    CompactAllEmpty(env, g, keys, a);
    if !StartsUndated(keys) {
      DatedAreValid(env, lid, lin, options, a);
      CompactAllSucceeds(env, g, keys, budget, a);
    } else if budget > 0 {
      UndatedStops(env, lid, lin, keys, budget, a);
    }
  }

  lemma CompactAllEmpty(env: Env, g: Graph, keys: seq<Pair>, a: Authority)
    ensures CompactAll(env, g, keys, 0, a).refused == Ok
  {
  }

  // ---------------------------------------------------------------------------------------
  // What the present explanation needs
  // ---------------------------------------------------------------------------------------

  /** The current record, CURRENT and pending records, and the ancestry within the retained depth
      when it fits the traversal bounds. */
  ghost predicate Needed(env: Env, lin: Lineage, options: CompactOptions, n: Node) {
    || n.id == lin.state.currentNode || n.currentness == IsCurrent || n.revalidationRequired
    || n.id in RetainedAncestry(env, lin, options)
  }

  lemma NeededIsProtected(env: Env, lin: Lineage, options: CompactOptions, n: Node)
    requires HoldsRecord(lin.graph, n)
    ensures Needed(env, lin, options, n) <==> n.id in Protected(env, lin, options)
  {
    hide RetainedAncestry;
  }

  /** A record after compaction: itself, or the tombstone of an unneeded history record. */
  ghost predicate KeptOrTombstone(env: Env, lin: Lineage, options: CompactOptions, n: Node, n': Node) {
    || n' == n
    || (&& IsHistoryRecord(n) && !Needed(env, lin, options, n)
        && n'.id == n.id && n'.core.kind == CompactedSummary && n'.core.generation == n.core.generation
        && n'.core.lineage == n.core.lineage && n'.core.compacted == Some(n.id)
        && !IsHistoryRecord(n') && n'.currentness == HistoricalOnly)
  }

  /** The same identities, edges, current record and ledger, and each record kept or a tombstone. */
  ghost predicate ShapeKept(env: Env, lin: Lineage, lin': Lineage, options: CompactOptions) {
    && lin'.graph.edges == lin.graph.edges && lin'.graph.nodes.Keys == lin.graph.nodes.Keys
    && lin'.state.currentNode == lin.state.currentNode && lin'.attempts == lin.attempts
    && forall id :: id in lin.graph.nodes && id in lin'.graph.nodes ==>
         KeptOrTombstone(env, lin, options, lin.graph.nodes[id], lin'.graph.nodes[id])
  }

  lemma ReplacedIsTombstone(env: Env, lid: nat, lin: Lineage, options: CompactOptions, a: Authority, n: Node)
    requires LineageSound(env, lid, lin) && HoldsRecord(lin.graph, n)
    requires IsHistoryRecord(n) && n.id !in Protected(env, lin, options)
    ensures KeptOrTombstone(env, lin, options, n, Tombstone(env, n, a))
  {
    hide LineageSound, Protected, Needed, HasOrigin, ValidateNode, CanonCore;
    NodeIsSound(env, lid, lin, n.id);
    NeededIsProtected(env, lin, options, n);
    TombstoneKeeps(env, n, a);
  }

  /** The lineage after a compaction, at what it replaced. */
  lemma CompactedLineageAt(env: Env, s: Store, lid: nat, a: Authority, options: CompactOptions)
    requires lid in s.lineages && WellFormed(LineageAt(s, lid).graph)
    ensures
      var s' := Compact(env, s, lid, a, options).store;
      var lin, ids := LineageAt(s, lid), Doomed(env, LineageAt(s, lid), a, options);
      && (LineageAt(s', lid) == lin || CompactedLineage(env, lin, LineageAt(s', lid), a, ids))
      && OnlyHistory(env, lin, options, ids)
  {
    hide CompactLineage, Doomed, CompactedLineage, Compact, OnlyHistory, ReplacedExactly, TombstonesValid;
    CompactIsCompaction(env, s, lid, a, options);
    CompactLineageExact(env, LineageAt(s, lid), a, options);
  }

  /** Compaction preserves shape: the same identities, the same edges (and so every traversal's
      shape, TraversalShapeKept), the same current record; every record is untouched or, when the
      present explanation does not need it, becomes a tombstone that keeps its generation and the
      digest of its old core. */
  lemma CompactionPreservesShape(env: Env, s: Store, lid: nat, a: Authority, options: CompactOptions)
    requires Sound(env, s) && lid in s.lineages
    ensures ShapeKept(env, LineageAt(s, lid), LineageAt(Compact(env, s, lid, a, options).store, lid), options)
  {
    hide LineageSound, Sound, Compact, Doomed, KeptOrTombstone, TombstonesValid, Tombstone, Protected, IsHistoryRecord;
    var lin, ids := LineageAt(s, lid), Doomed(env, LineageAt(s, lid), a, options);
    var lin' := LineageAt(Compact(env, s, lid, a, options).store, lid);
    SoundLineage(env, s, lid);
    SoundIsWellFormed(env, lid, lin);
    CompactedLineageAt(env, s, lid, a, options);
    forall id | id in lin.graph.nodes && id in lin'.graph.nodes
      ensures KeptOrTombstone(env, lin, options, lin.graph.nodes[id], lin'.graph.nodes[id])
    {
      ItselfIsKept(env, lin, options, lin.graph.nodes[id]);
      if id in ids {
        NodeIsSound(env, lid, lin, id);
        ReplacedIsTombstone(env, lid, lin, options, a, lin.graph.nodes[id]);
      }
    }
  }

  lemma ItselfIsKept(env: Env, lin: Lineage, options: CompactOptions, n: Node)
    ensures KeptOrTombstone(env, lin, options, n, n)
  {
  }

  /** The counters after a compaction that replaced so many records. */
  predicate CountsFall(lin: Lineage, lin': Lineage, replaced: nat) {
    && lin'.state.compactedCount == lin.state.compactedCount + replaced
    && lin'.state.historyCount == lin.state.historyCount - replaced
    && lin'.state.nodeCount == lin.state.nodeCount && lin'.state.edgeCount == lin.state.edgeCount
    && lin'.state.lineageGeneration == lin.state.lineageGeneration + (if replaced > 0 then 1 else 0)
  }

  /** A compaction that succeeds reports exactly how many records it replaced, lowers the stored
      history count by that many, and advances both generations when it replaced any. */
  lemma CompactionCounts(env: Env, s: Store, lid: nat, a: Authority, options: CompactOptions)
    requires Sound(env, s) && CheckCompaction(s, lid, a) && Compact(env, s, lid, a, options).outcome == Ok
    ensures
      var s' := Compact(env, s, lid, a, options).store;
      var replaced := |Doomed(env, LineageAt(s, lid), a, options)|;
      && CountsFall(LineageAt(s, lid), LineageAt(s', lid), replaced)
      && s'.marks == if replaced > 0 then Marked(s).marks else s.marks
  {
    hide LineageSound, Sound, CompactLineage, Doomed, ReplacedExactly, TombstonesValid, OnlyHistory, HistoryRecords,
      LivenessOf, LineageAt, LineageAfter, CountsFall;
    var lin := LineageAt(s, lid);
    SoundLineage(env, s, lid);
    SoundIsWellFormed(env, lid, lin);
    SoundParts(env, lid, lin);
    CompactLineageExact(env, lin, a, options);
    var done, ids := CompactLineage(env, lin, a, options), Doomed(env, lin, a, options);
    ProtectsCurrent(env, lin, options, ids);
    HistoryShrinks(env, a, lin.graph, done.graph, ids);
    AfterCompactionAt(s, lid, done);
    LineageCountsFall(lin, done);
  }

  lemma LineageCountsFall(lin: Lineage, done: Compaction)
    requires done.count > 0 ==> Next(lin.state.lineageGeneration).Some?
    requires done.graph.nodes.Keys == lin.graph.nodes.Keys && done.graph.edges == lin.graph.edges
    requires |HistoryRecords(done.graph)| == |HistoryRecords(lin.graph)| - done.count
    requires CountsExact(lin) && done.refused == Ok
    ensures CountsFall(lin, LineageAfter(lin, done), done.count)
  {
    hide HistoryRecords;
    assert |done.graph.nodes.Keys| == |done.graph.nodes| && |lin.graph.nodes.Keys| == |lin.graph.nodes|;
  }

  /** The caller of compact passes its checks. */
  ghost predicate CheckCompaction(s: Store, lid: nat, a: Authority) {
    && lid != 0 && lid in s.lineages && a.HasIdentity() && s.marks.epoch != 0 && a.epoch == s.marks.epoch
    && LivenessOf(s.publishers, (a.publisher, a.boot)) == Live
    && a.scope.Permits(lid, LineageAt(s, lid).state.key.route)
  }

  lemma {:induction false} BallInside(g: Graph, origin: nat, k: nat)
    requires WellFormed(g) && origin in g.nodes
    ensures Ball(EdgeArcs(g), origin, k) <= g.nodes.Keys
    decreases k
  {
    if k > 0 {
      BallInside(g, origin, k - 1);
    }
  }

  /** A record of the graph is in the other, unchanged. */
  predicate Unchanged(g: Graph, h: Graph, id: nat) {
    id in g.nodes ==> id in h.nodes && h.nodes[id] == g.nodes[id]
  }

  /** When the traversal bounds admit as many records as the lineage holds, no record within the
      retained depth is ever replaced. */
  lemma AncestryIsKept(env: Env, s: Store, lid: nat, a: Authority, options: CompactOptions, id: nat)
    requires lid in s.lineages && WellFormed(LineageAt(s, lid).graph)
    requires |LineageAt(s, lid).graph.nodes| <= env.limits.maxResults
    requires |LineageAt(s, lid).graph.nodes| <= env.limits.maxVisited
    requires id in AncestryOf(env.limits, LineageAt(s, lid), options)
    ensures Unchanged(LineageAt(s, lid).graph, LineageAt(Compact(env, s, lid, a, options).store, lid).graph, id)
  {
    hide Compact, Doomed, TombstonesValid, Tombstone, IsHistoryRecord, WellFormed, EdgeArcs, Effective;
    var lin := LineageAt(s, lid);
    CompactedLineageAt(env, s, lid, a, options);
    var limits := env.limits;
    var depth := Effective(if options.retainDepth == 0 then limits.maxDepth else options.retainDepth, limits.maxDepth);
    if lin.state.currentNode in lin.graph.nodes {
      BallInside(lin.graph, lin.state.currentNode, depth);
      SubsetSize(AncestryOf(limits, lin, options), lin.graph.nodes.Keys);
      assert |lin.graph.nodes.Keys| == |lin.graph.nodes|;
    } else {
      BallOutside(lin.graph, lin.state.currentNode, depth);
    }
  }

  lemma {:induction false} BallOutside(g: Graph, origin: nat, k: nat)
    requires WellFormed(g) && origin !in g.nodes
    ensures Ball(EdgeArcs(g), origin, k) == {origin}
    decreases k
  {
    if k > 0 {
      BallOutside(g, origin, k - 1);
    }
  }
}
