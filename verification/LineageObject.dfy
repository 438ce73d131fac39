// One lineage of the store as the object the program mutates (src/store_internal.hpp, Lineage):
// its state, its graph and its attempt ledger. Every method is proved against the function that
// the theorems about the store are stated over.
module LineageObjects {
  import opened Types
  import opened Ordering
  import opened Digraph
  import opened GraphModel
  import opened StoreTypes
  import opened CurrentnessModel
  import opened CommitPipeline
  import opened Operations
  import opened Images
  import GraphClass = ProvenanceGraphClass

  // ---------------------------------------------------------------------------------------
  // One step of each loop
  // ---------------------------------------------------------------------------------------

  /** Re-evaluating one more record. */
  lemma RefreshOne(state: LineageState, g: Graph, marks: Watermarks, publishers: Registry, done: set<nat>, id: nat)
    ensures
      var h := Refresh(state, g, marks, publishers, done);
      var h' := Refresh(state, g, marks, publishers, done + {id});
      if id !in h.nodes then h' == h
      else
        var c := Recomputed(state, h.nodes[id], marks, publishers);
        && h' == UpdateNodeState(h, id, h.nodes[id].lifecycle, c, h.nodes[id].revalidationRequired)
        && UpdateNodeStateOutcome(h, id, h.nodes[id].lifecycle) == Ok
        && (c == h.nodes[id].currentness ==> h' == h)
  {
    hide Compute, LivenessOf;
    var h := Refresh(state, g, marks, publishers, done);
    var h' := Refresh(state, g, marks, publishers, done + {id});
    if id in h.nodes {
      var n := h.nodes[id];
      CurrentnessNotRead(state, g.nodes[id], n.currentness, marks, LivenessOf(publishers, PublisherOf(n)));
      var c := Recomputed(state, n, marks, publishers);
      assert h'.nodes == h.nodes[id := n.(currentness := c)];
    } else {
      assert h'.nodes == h.nodes;
    }
  }

  lemma RefreshKeepsKeys(state: LineageState, g: Graph, marks: Watermarks, publishers: Registry, ids: set<nat>)
    ensures Refresh(state, g, marks, publishers, ids).nodes.Keys == g.nodes.Keys
  {
    hide Compute, LivenessOf;
  }

  lemma RefreshNothing(state: LineageState, g: Graph, marks: Watermarks, publishers: Registry)
    ensures Refresh(state, g, marks, publishers, {}) == g
  {
    hide Compute, LivenessOf;
    assert Refresh(state, g, marks, publishers, {}).nodes == g.nodes;
  }

  lemma RefreshTwice(state: LineageState, g: Graph, marks: Watermarks, publishers: Registry, a: set<nat>, b: set<nat>)
    ensures Refresh(state, Refresh(state, g, marks, publishers, a), marks, publishers, b) ==
            Refresh(state, g, marks, publishers, a + b)
  {
    hide Compute, LivenessOf;
    var h := Refresh(state, g, marks, publishers, a);
    forall id | id in g.nodes
      ensures Recomputed(state, h.nodes[id], marks, publishers) == Recomputed(state, g.nodes[id], marks, publishers)
    {
      CurrentnessNotRead(state, g.nodes[id], h.nodes[id].currentness, marks,
        LivenessOf(publishers, PublisherOf(g.nodes[id])));
    }
    assert Refresh(state, h, marks, publishers, b).nodes == Refresh(state, g, marks, publishers, a + b).nodes;
  }

  lemma ElementsPrefix(s: seq<nat>, i: nat)
    requires i < |s|
    ensures Elements(s[..i + 1]) == Elements(s[..i]) + {s[i]}
  {
    assert s[..i + 1] == s[..i] + [s[i]];
  }

  lemma ElementsSorted(s: set<nat>)
    ensures Elements(Sorted(s)) == s
  {
    SortedMembers(s);
  }

  lemma ElementsAll(s: seq<nat>)
    ensures Elements(s[..0]) == {} && s[..|s|] == s
  {
  }

  /** What building the rest of the edges gives once the first ones are built. */
  ghost function Ahead(done: seq<Edge>, rest: Result<seq<Edge>>): Result<seq<Edge>> {
    if rest.Failure? then rest else Success(done + rest.value)
  }

  lemma AheadNothing(rest: Result<seq<Edge>>)
    ensures Ahead([], rest) == rest
  {
    if rest.Success? {
      assert [] + rest.value == rest.value;
    }
  }

  lemma AheadStep(env: Env, s: Store, g: Graph, lid: nat, r: Request, node: Node, specs: seq<EdgeSpec>, i: nat,
                  done: seq<Edge>)
    requires i < |specs|
    ensures
      var first := BuildEdge(env, s, g, lid, r, node, specs[i]);
      var all := Ahead(done, BuildEdges(env, s, g, lid, r, node, specs[i..]));
      if first.Failure? then all == Failure(first.outcome)
      else all == Ahead(done + [first.value], BuildEdges(env, s, g, lid, r, node, specs[i + 1..]))
  {
    hide BuildEdge;
    assert specs[i..][1..] == specs[i + 1..] && specs[i..][0] == specs[i];
    var first := BuildEdge(env, s, g, lid, r, node, specs[i]);
    var rest := BuildEdges(env, s, g, lid, r, node, specs[i + 1..]);
    if first.Success? && rest.Success? {
      assert done + ([first.value] + rest.value) == (done + [first.value]) + rest.value;
    }
  }

  lemma AheadDone(env: Env, s: Store, g: Graph, lid: nat, r: Request, node: Node, specs: seq<EdgeSpec>, done: seq<Edge>)
    ensures Ahead(done, BuildEdges(env, s, g, lid, r, node, specs[|specs|..])) == Success(done)
  {
    assert done + [] == done;
  }

  lemma InsertStep(g: Graph, edges: seq<Edge>, i: nat, limits: Limits, outcome: Outcome)
    requires i < |edges|
    ensures
      var o := AddEdgeOutcome(g, edges[i], limits);
      var all := InsertEdges(g, edges[i..], limits, outcome);
      if o == Duplicate then all == InsertEdges(g, edges[i + 1..], limits, outcome)
      else if o != Ok then all == Insertion(g, outcome, [], o)
      else all == InsertEdges(WithEdge(g, edges[i]), edges[i + 1..], limits,
                              if outcome == Duplicate then Linked else outcome)
  {
    hide AddEdgeOutcome;
    assert edges[i..][1..] == edges[i + 1..] && edges[i..][0] == edges[i];
  }

  ghost function Listing(done: seq<Edge>, rest: Insertion): Insertion {
    rest.(edges := done + rest.edges)
  }

  lemma ListingNothing(rest: Insertion)
    ensures Listing([], rest) == rest
  {
    assert [] + rest.edges == rest.edges;
  }

  lemma OutgoingAll(g: Graph, target: nat)
    ensures forall i :: 0 <= i < |Sorted(EdgesAt(g, Outgoing, target))| ==>
            Sorted(EdgesAt(g, Outgoing, target))[i] in g.edges
  {
    hide Sorted;
    SortedAll(EdgesAt(g, Outgoing, target));
  }

  lemma CorrectionMoves(env: Env, st: LineageState, g: Graph, r: Request, node: Node, h: Graph, rebound: seq<Edge>)
    requires RebindAll(env, g, g, Sorted(EdgesAt(g, Outgoing, r.target)), node.id, r.authority) ==
             Insertion(h, Ok, rebound, Ok)
    ensures MoveCorrection(env, st, g, r, node) ==
            Moved(if st.currentNode == r.target then st.(currentNode := node.id) else st,
                  UpdateNodeState(SetCorrectedBy(h, r.target, node.id), r.target, Invalid, HistoricalOnly, false),
                  rebound, {r.target, node.id})
  {
    hide Sorted, Enumerates, EdgesAt, RebindAll, UpdateNodeState, SetCorrectedBy;
  }

  /** The graph, listed edges and touched records after a transition and its promotions. */
  ghost function Promoted(r: Request, moved: Moved, edges: seq<Edge>): Graph {
    if r.kind == LinkKind then Promote(moved.graph, r.target) else PromoteAll(moved.graph, edges)
  }

  ghost function Turned(env: Env, st: LineageState, g: Graph, r: Request, node: Node, listed: seq<Edge>): Moved {
    Move(env, Bookkeep(st, r), g, listed, r, node)
  }

  function LedgerEntry(digest: nat, named: nat, outcome: Outcome, edges: seq<Edge>,
                       nodes: map<nat, Node>): AttemptRecord {
    AttemptRecord(digest, named, EdgeIds(edges), outcome,
                  if named in nodes then nodes[named].lifecycle else Current,
                  if named in nodes then nodes[named].currentness else HistoricalOnly)
  }

  function Named(r: Request, node: Node): nat {
    if r.kind == LinkKind then r.linkFrom else node.id
  }

  lemma SettleIs(env: Env, s: Store, lin: Lineage, r: Request, node: Node, ins: Insertion)
    ensures
      var moved := Turned(env, lin.state, ins.graph, r, node, ins.edges);
      var edges := ins.edges + moved.edges;
      var promoted := Promoted(r, moved, edges);
      var st := Counted(moved.state, promoted, env.RequestDigest(r));
      var g := Refresh(st, promoted, s.marks, s.publishers, Affected(r, node, ins.edges, moved));
      Settle(env, s, lin, r, node, ins) ==
      Lineage(st, g, lin.attempts[AttemptKeyOf(r.authority) :=
                LedgerEntry(env.RequestDigest(r), Named(r, node), ins.outcome, edges, g.nodes)])
  {
    hide Move, Bookkeep, Promote, PromoteAll, Counted, Refresh, Affected, EdgeIds;
  }

  lemma AffectedIs(r: Request, node: Node, listed: seq<Edge>, moved: Moved, touched: seq<nat>)
    requires Elements(touched) == moved.touched
    ensures
      var affected := (if r.kind == LinkKind then [r.linkFrom, r.target] else [node.id] + EdgeTargets(listed)) +
          touched;
      Elements(affected) + Elements([moved.state.currentNode]) == Affected(r, node, listed, moved)
  {
    hide EdgeTargets, HeadSet;
    TargetsSet(listed);
  }

  lemma RebindStep(env: Env, original: Graph, g: Graph, ids: seq<nat>, i: nat, from: nat, authority: Authority,
                   done: seq<Edge>)
    requires i < |ids| && ids[i] in original.edges
    ensures
      var e := original.edges[ids[i]];
      var rebound := Rebound(env, e, from, authority);
      Listing(done, RebindAll(env, original, g, ids[i..], from, authority)) ==
      if !IsSuccessorRelation(e.etype) || AddEdgeOutcome(g, rebound, env.limits) != Ok
      then Listing(done, RebindAll(env, original, g, ids[i + 1..], from, authority))
      else Listing(done + [rebound], RebindAll(env, original, WithEdge(g, rebound), ids[i + 1..], from, authority))
  {
    hide AddEdgeOutcome, Rebound, IsSuccessorRelation, WithEdge;
    assert ids[i..][1..] == ids[i + 1..] && ids[i..][0] == ids[i];
    var e := original.edges[ids[i]];
    var rebound := Rebound(env, e, from, authority);
    if IsSuccessorRelation(e.etype) && AddEdgeOutcome(g, rebound, env.limits) == Ok {
      var rest := RebindAll(env, original, WithEdge(g, rebound), ids[i + 1..], from, authority);
      assert done + ([rebound] + rest.edges) == (done + [rebound]) + rest.edges;
    }
  }

  lemma PromoteStep(g: Graph, edges: seq<Edge>, i: nat)
    requires i < |edges|
    ensures PromoteAll(g, edges[i..]) ==
            PromoteAll(if IsEvidenceRelation(edges[i].etype) then Promote(g, edges[i].to) else g, edges[i + 1..])
  {
    hide Promote, IsEvidenceRelation;
    assert edges[i..][1..] == edges[i + 1..] && edges[i..][0] == edges[i];
  }

  function HistoryAmong(g: Graph, ids: seq<nat>): set<nat> {
    set id | id in ids && id in g.nodes && IsHistoryRecord(g.nodes[id])
  }

  lemma HistoryStep(g: Graph, ids: seq<nat>, i: nat)
    requires i < |ids| && Ascending(ids) && ids[i] in g.nodes
    ensures |HistoryAmong(g, ids[..i + 1])| ==
            |HistoryAmong(g, ids[..i])| + if IsHistoryRecord(g.nodes[ids[i]]) then 1 else 0
  {
    hide IsHistoryRecord;
    assert ids[..i + 1] == ids[..i] + [ids[i]];
    assert ids[i] !in ids[..i];
    assert HistoryAmong(g, ids[..i + 1]) ==
           HistoryAmong(g, ids[..i]) + if IsHistoryRecord(g.nodes[ids[i]]) then {ids[i]} else {};
  }

  lemma HistoryAll(g: Graph)
    ensures
      var ids := Sorted(g.nodes.Keys);
      && HistoryAmong(g, ids[..0]) == {} && ids[..|ids|] == ids
      && HistoryAmong(g, ids) == HistoryRecords(g)
      && Ascending(ids) && (forall i :: 0 <= i < |ids| ==> ids[i] in g.nodes)
  {
    hide IsHistoryRecord, Sorted;
    var ids := Sorted(g.nodes.Keys);
    SortedAll(g.nodes.Keys);
    SortedMembers(g.nodes.Keys);
    forall id ensures id in HistoryAmong(g, ids) <==> id in HistoryRecords(g) {
      assert id in g.nodes.Keys <==> id in ids;
    }
  }

  // Compaction: the records that stay, and the tombstones one by one.

  function NeedingRevalidation(g: Graph, ids: seq<nat>): set<nat> {
    set id | id in ids && id in g.nodes && (g.nodes[id].currentness == IsCurrent || g.nodes[id].revalidationRequired)
  }

  lemma NeedingStep(g: Graph, ids: seq<nat>, i: nat)
    requires i < |ids| && ids[i] in g.nodes
    ensures
      var n := g.nodes[ids[i]];
      NeedingRevalidation(g, ids[..i + 1]) ==
      NeedingRevalidation(g, ids[..i]) + if n.currentness == IsCurrent || n.revalidationRequired then {ids[i]} else {}
  {
    assert ids[..i + 1] == ids[..i] + [ids[i]];
  }

  lemma NeedingAll(g: Graph)
    ensures
      var ids := Sorted(g.nodes.Keys);
      && NeedingRevalidation(g, ids[..0]) == {} && ids[..|ids|] == ids
      && (forall i :: 0 <= i < |ids| ==> ids[i] in g.nodes)
      && NeedingRevalidation(g, ids) ==
         set id | id in g.nodes && (g.nodes[id].currentness == IsCurrent || g.nodes[id].revalidationRequired)
  {
    hide Sorted;
    SortedAll(g.nodes.Keys);
    SortedMembers(g.nodes.Keys);
  }

  lemma ProtectedIs(env: Env, lin: Lineage, options: CompactOptions)
    ensures
      Protected(env, lin, options) ==
      {lin.state.currentNode} + NeedingRevalidation(lin.graph, Sorted(lin.graph.nodes.Keys)) +
        RetainedAncestry(env, lin, options)
  {
    hide RetainedAncestry, NeedingRevalidation, Sorted;
    NeedingAll(lin.graph);
  }

  function EntryIds(entries: seq<TraversalEntry>): set<nat> {
    set i | 0 <= i < |entries| :: entries[i].node.id
  }

  /** A traversal that does not overflow lists exactly the ball it explores. */
  lemma TraversedIsBall(g: Graph, origin: nat, depth: nat, r: TraversalResult)
    requires ExactTraversal(g, FilteredArcs(g, Outgoing, ALL_TYPES), origin, depth, r)
    ensures EntryIds(r.nodes) == Ball(EdgeArcs(g), origin, depth)
  {
    UnfilteredArcs(g);
    var arcs := EdgeArcs(g);
    forall n | n in EntryIds(r.nodes) ensures n in Ball(arcs, origin, depth) {
      var i :| 0 <= i < |r.nodes| && r.nodes[i].node.id == n;
      BallGrows(arcs, origin, r.nodes[i].depth, depth);
    }
  }

  function CandidatesAmong(g: Graph, kept: set<nat>, ids: seq<nat>): set<Pair> {
    set id | id in ids && id in g.nodes && IsHistoryRecord(g.nodes[id]) && id !in kept ::
      (g.nodes[id].core.generation, id)
  }

  lemma CandidateStep(g: Graph, kept: set<nat>, ids: seq<nat>, i: nat)
    requires i < |ids| && ids[i] in g.nodes
    ensures
      CandidatesAmong(g, kept, ids[..i + 1]) ==
      CandidatesAmong(g, kept, ids[..i]) +
      if IsHistoryRecord(g.nodes[ids[i]]) && ids[i] !in kept then {(g.nodes[ids[i]].core.generation, ids[i])} else {}
  {
    hide IsHistoryRecord;
    assert ids[..i + 1] == ids[..i] + [ids[i]];
    forall k | k in CandidatesAmong(g, kept, ids[..i]) ensures k in CandidatesAmong(g, kept, ids[..i + 1]) {
      assert k.1 in ids[..i + 1];
    }
    assert ids[i] in ids[..i + 1];
  }

  lemma CandidatesAll(env: Env, lin: Lineage, options: CompactOptions)
    ensures
      var g, kept := lin.graph, Protected(env, lin, options);
      var ids := Sorted(g.nodes.Keys);
      && CandidatesAmong(g, kept, ids[..0]) == {} && ids[..|ids|] == ids
      && (forall i :: 0 <= i < |ids| ==> ids[i] in g.nodes)
      && CandidatesAmong(g, kept, ids) == Candidates(env, lin, options)
  {
    hide Sorted, Protected, IsHistoryRecord;
    SortedAll(lin.graph.nodes.Keys);
    SortedMembers(lin.graph.nodes.Keys);
  }

  predicate AllNodes(g: Graph, keys: seq<Pair>) {
    forall i :: 0 <= i < |keys| ==> keys[i].1 in g.nodes
  }

  ghost function Counting(done: nat, rest: Compaction): Compaction {
    rest.(count := rest.count + done)
  }

  lemma CompactStep(env: Env, g: Graph, keys: seq<Pair>, i: nat, budget: nat, a: Authority, done: nat)
    requires i < |keys| && keys[i].1 in g.nodes && budget > 0
    ensures
      var id := keys[i].1;
      var tombstone := Tombstone(env, g.nodes[id], a);
      var o := CompactNodeOutcome(g, id, tombstone);
      Counting(done, CompactAll(env, g, keys[i..], budget, a)) ==
      if o != Ok then Compaction(g, done, o)
      else Counting(done + 1, CompactAll(env, CompactNode(g, id, tombstone), keys[i + 1..], budget - 1, a))
  {
    hide Tombstone, CompactNodeOutcome;
    assert keys[i..][1..] == keys[i + 1..] && keys[i..][0] == keys[i];
  }

  lemma CompactDone(env: Env, g: Graph, keys: seq<Pair>, budget: nat, a: Authority, done: nat)
    requires keys == [] || budget == 0
    ensures Counting(done, CompactAll(env, g, keys, budget, a)) == Compaction(g, done, Ok)
  {
  }

  lemma CandidatesListed(env: Env, lin: Lineage, options: CompactOptions)
    ensures AllNodes(lin.graph, SortedPairs(Candidates(env, lin, options)))
  {
    hide Protected, SortedPairs;
    SortedPairsAll(Candidates(env, lin, options));
  }

  // Load: records, edges and attempts one by one.

  lemma LoadNodesStep(g: Graph, nodes: seq<Node>, i: nat, limits: Limits)
    requires i < |nodes|
    ensures
      LoadNodes(g, nodes[i..], limits) ==
      if AddNodeOutcome(g, nodes[i], limits) != Ok then Failure(StoreCorrupt)
      else LoadNodes(GraphModel.AddNode(g, nodes[i], limits), nodes[i + 1..], limits)
  {
    hide AddNodeOutcome, GraphModel.AddNode;
    assert nodes[i..][1..] == nodes[i + 1..] && nodes[i..][0] == nodes[i];
  }

  lemma LoadEdgesStep(g: Graph, edges: seq<Edge>, i: nat, limits: Limits)
    requires i < |edges|
    ensures
      LoadEdges(g, edges[i..], limits) ==
      if AddEdgeOutcome(g, edges[i], limits) != Ok then Failure(StoreCorrupt)
      else LoadEdges(WithEdge(g, edges[i]), edges[i + 1..], limits)
  {
    hide AddEdgeOutcome, WithEdge;
    assert edges[i..][1..] == edges[i + 1..] && edges[i..][0] == edges[i];
  }

  lemma DerivationsStep(m: map<nat, nat>, edges: seq<Edge>, i: nat)
    requires i < |edges|
    ensures Derivations(m, edges[i..]) == Derivations(GraphClass.WithDerivation(m, edges[i]), edges[i + 1..])
  {
    assert edges[i..][1..] == edges[i + 1..] && edges[i..][0] == edges[i];
  }

  lemma LoadAttemptsStep(m: map<AttemptKey, AttemptRecord>, attempts: seq<StoredAttempt>, i: nat)
    requires i < |attempts|
    ensures
      var k := (attempts[i].publisher, attempts[i].attempt);
      LoadAttempts(m, attempts[i..]) ==
      LoadAttempts(if k in m then m else m[k := attempts[i].record], attempts[i + 1..])
  {
    assert attempts[i..][1..] == attempts[i + 1..] && attempts[i..][0] == attempts[i];
  }

  function DemoteSome(g: Graph, ids: set<nat>): Graph {
    g.(nodes := map id | id in g.nodes :: if id in ids then Demoted(g.nodes[id]) else g.nodes[id])
  }

  lemma DemoteStep(g: Graph, ids: set<nat>, id: nat)
    requires id in g.nodes && id !in ids
    ensures
      var h := DemoteSome(g, ids);
      && id in h.nodes && h.nodes[id] == g.nodes[id]
      && (VouchedFor(h.nodes[id]) ==> UpdateNodeStateOutcome(h, id, RevalidationRequired) == Ok)
      && DemoteSome(g, ids + {id}) ==
         if VouchedFor(h.nodes[id]) then UpdateNodeState(h, id, RevalidationRequired, NeedsRevalidation, true) else h
  {
    var h, h' := DemoteSome(g, ids), DemoteSome(g, ids + {id});
    assert h'.nodes == h.nodes[id := Demoted(g.nodes[id])];
    if !VouchedFor(g.nodes[id]) {
      assert h'.nodes == h.nodes;
    }
  }

  lemma DemoteEnds(g: Graph)
    ensures DemoteSome(g, {}) == g && DemoteSome(g, g.nodes.Keys) == Demote(g)
  {
    hide Demoted;
    assert DemoteSome(g, {}).nodes == g.nodes;
  }

  lemma OrderedIds(g: Graph)
    ensures
      var ids := Sorted(g.nodes.Keys);
      forall i :: 0 <= i < |ids| ==> ids[i] in g.nodes && ids[i] !in Elements(ids[..i])
  {
    hide Sorted;
    SortedAll(g.nodes.Keys);
  }

  function CompactedAmong(g: Graph, ids: seq<nat>): set<nat> {
    set id | id in ids && id in g.nodes && g.nodes[id].core.kind == CompactedSummary
  }

  lemma CompactedStep(g: Graph, ids: seq<nat>, i: nat)
    requires i < |ids| && Ascending(ids) && ids[i] in g.nodes
    ensures |CompactedAmong(g, ids[..i + 1])| ==
            |CompactedAmong(g, ids[..i])| + if g.nodes[ids[i]].core.kind == CompactedSummary then 1 else 0
  {
    assert ids[..i + 1] == ids[..i] + [ids[i]];
    assert ids[i] !in ids[..i];
    assert CompactedAmong(g, ids[..i + 1]) ==
           CompactedAmong(g, ids[..i]) + if g.nodes[ids[i]].core.kind == CompactedSummary then {ids[i]} else {};
  }

  lemma CompactedAll(g: Graph)
    ensures
      var ids := Sorted(g.nodes.Keys);
      && CompactedAmong(g, ids[..0]) == {} && ids[..|ids|] == ids && Ascending(ids)
      && CompactedAmong(g, ids) == CompactedRecords(g)
      && (forall i :: 0 <= i < |ids| ==> ids[i] in g.nodes)
  {
    hide Sorted;
    SortedAll(g.nodes.Keys);
    SortedMembers(g.nodes.Keys);
  }

  // ---------------------------------------------------------------------------------------
  // The object
  // ---------------------------------------------------------------------------------------

  class LineageObject {
    var state: LineageState
    var attempts: map<AttemptKey, AttemptRecord>
    const graph: GraphClass.ProvenanceGraph

    ghost function View(): Lineage
      reads this, graph
    {
      Lineage(state, graph.View(), attempts)
    }

    /** Few enough records that the cycle check never overflows. */
    ghost predicate SmallLineage(limits: Limits)
      reads graph
    {
      |graph.nodes| <= limits.maxVisited
    }

    constructor (id: nat, key: LineageKey)
      ensures fresh(graph) && graph.Valid() && View() == NewLineage(id, key)
      ensures graph.nodes == map[] && graph.derivations == map[] && state.id == id
    {
      state := LineageState(id, key, Active, 0, 0, 0, 0, 0, 0, 0, 0, 0, 0);
      attempts := map[];
      graph := new GraphClass.ProvenanceGraph();
    }

    /** reevaluate_nodes: recomputes the listed records in place; it never refuses. */
    method Reevaluate(ids: seq<nat>, marks: Watermarks, publishers: Registry) returns (r: Outcome)
      requires graph.Valid()
      modifies graph
      ensures graph.Valid() && graph.nodes.Keys == old(graph.nodes.Keys) && |graph.nodes| == |old(graph.nodes)| &&
              r == Ok
      ensures graph.View() == Refresh(state, old(graph.View()), marks, publishers, Elements(ids))
    {
      hide GraphClass.ProvenanceGraph.Valid, Refresh, Compute, LivenessOf, UpdateNodeState, UpdateNodeStateOutcome;
      ghost var g := graph.View();
      RefreshNothing(state, g, marks, publishers);
      ElementsAll(ids);
      var i := 0;
      while i < |ids|
        invariant 0 <= i <= |ids| && graph.Valid() && graph.nodes.Keys == old(graph.nodes.Keys)
        invariant graph.View() == Refresh(state, g, marks, publishers, Elements(ids[..i]))
      {
        RefreshOne(state, g, marks, publishers, Elements(ids[..i]), ids[i]);
        ElementsPrefix(ids, i);
        if ids[i] in graph.nodes {
          var n := graph.nodes[ids[i]];
          var c := Recomputed(state, n, marks, publishers);
          if c != n.currentness {
            var status := graph.UpdateNodeState(ids[i], n.lifecycle, c, n.revalidationRequired);
            if status != Ok {
              return status;
            }
          }
        }
        i := i + 1;
      }
      return Ok;
    }

    method CountHistory() returns (n: nat)
      ensures n == |HistoryRecords(graph.View())|
    {
      hide *;
      HistoryAll(graph.View());
      graph.ViewIs();
      var ids := Sorted(graph.nodes.Keys);
      n := 0;
      var i := 0;
      while i < |ids|
        invariant 0 <= i <= |ids| && n == |HistoryAmong(graph.View(), ids[..i])|
      {
        HistoryStep(graph.View(), ids, i);
        if IsHistoryRecord(graph.nodes[ids[i]]) {
          n := n + 1;
        }
        i := i + 1;
      }
    }

    // -------------------------------------------------------------------------------------
    // Stage 12: the edges of the request, checked without changing anything
    // -------------------------------------------------------------------------------------

    method CheckAddEdge(from: nat, to: nat, limits: Limits) returns (r: Outcome)
      requires graph.Valid() && SmallLineage(limits)
      ensures r == GraphModel.CheckAddEdge(graph.View(), from, to)
    {
      r := graph.CheckAddEdge(from, to, limits);
    }

    method BuildEdge(env: Env, ghost s: Store, owner: map<nat, nat>, lid: nat, r: Request, node: Node, spec: EdgeSpec)
      returns (built: Result<Edge>)
      requires graph.Valid() && SmallLineage(env.limits) && owner == s.indexes.owner
      ensures built == CommitPipeline.BuildEdge(env, s, graph.View(), lid, r, node, spec)
    {
      hide GraphClass.ProvenanceGraph.Valid, RawEdge, ValidateEdge, GraphModel.CheckAddEdge;
      if spec.target !in graph.nodes {
        return Failure(if spec.target in owner then InvalidDerivation else MissingParent);
      }
      var t := graph.nodes[spec.target];
      if IsSuccessorRelation(spec.etype) && !t.IsRouteState() {
        return Failure(InvalidDerivation);
      }
      var edge := env.FinalizeEdge(RawEdge(lid, r, node, t, spec));
      var consistency := ValidateEdge(edge);
      if consistency != Ok {
        return Failure(consistency);
      }
      var cycle := CheckAddEdge(edge.from, edge.to, env.limits);
      if cycle != Ok {
        return Failure(cycle);
      }
      return Success(edge);
    }

    method BuildEdges(env: Env, ghost s: Store, owner: map<nat, nat>, lid: nat, r: Request, node: Node)
      returns (built: Result<seq<Edge>>)
      requires graph.Valid() && SmallLineage(env.limits) && owner == s.indexes.owner
      ensures built == CommitPipeline.BuildEdges(env, s, graph.View(), lid, r, node, r.edges)
    {
      hide GraphClass.ProvenanceGraph.Valid, CommitPipeline.BuildEdge;
      ghost var g := graph.View();
      var edges: seq<Edge> := [];
      var i := 0;
      assert r.edges[0..] == r.edges;
      AheadNothing(CommitPipeline.BuildEdges(env, s, g, lid, r, node, r.edges));
      while i < |r.edges|
        invariant 0 <= i <= |r.edges|
        invariant Ahead(edges, CommitPipeline.BuildEdges(env, s, g, lid, r, node, r.edges[i..])) ==
                  CommitPipeline.BuildEdges(env, s, g, lid, r, node, r.edges)
      {
        AheadStep(env, s, g, lid, r, node, r.edges, i, edges);
        var edge := BuildEdge(env, s, owner, lid, r, node, r.edges[i]);
        if edge.Failure? {
          return Failure(edge.outcome);
        }
        edges := edges + [edge.value];
        i := i + 1;
      }
      AheadDone(env, s, g, lid, r, node, r.edges, edges);
      return Success(edges);
    }

    method BuildLink(env: Env, lid: nat, r: Request) returns (built: Result<Edge>)
      requires graph.Valid() && SmallLineage(env.limits)
      ensures built == CommitPipeline.BuildLink(env, graph.View(), lid, r)
    {
      hide GraphClass.ProvenanceGraph.Valid, RawLink, ValidateEdge, GraphModel.CheckAddEdge;
      if r.linkFrom !in graph.nodes || r.target !in graph.nodes {
        return Failure(MissingParent);
      }
      var from, to := graph.nodes[r.linkFrom], graph.nodes[r.target];
      if IsSuccessorRelation(r.linkType) && (!from.IsRouteState() || !to.IsRouteState()) {
        return Failure(InvalidDerivation);
      }
      var edge := env.FinalizeEdge(RawLink(lid, r, from, to));
      var consistency := ValidateEdge(edge);
      if consistency != Ok {
        return Failure(consistency);
      }
      var cycle := CheckAddEdge(edge.from, edge.to, env.limits);
      if cycle != Ok {
        return Failure(cycle);
      }
      return Success(edge);
    }

    // -------------------------------------------------------------------------------------
    // Stage 14: inserting the batch
    // -------------------------------------------------------------------------------------

    method AddEdge(edge: Edge, limits: Limits) returns (o: Outcome)
      requires graph.Valid() && SmallLineage(limits)
      modifies graph
      ensures graph.Valid() && graph.nodes.Keys == old(graph.nodes.Keys)
      ensures o == AddEdgeOutcome(old(graph.View()), edge, limits)
      ensures graph.View() == if o == Ok then WithEdge(old(graph.View()), edge) else old(graph.View())
      ensures graph.derivations == if o == Ok then GraphClass.WithDerivation(old(graph.derivations), edge)
              else old(graph.derivations)
    {
      o := graph.AddEdge(edge, limits);
    }

    method InsertEdges(edges: seq<Edge>, limits: Limits, first: Outcome) returns (outcome: Outcome, refused: Outcome)
      requires graph.Valid() && SmallLineage(limits)
      modifies graph
      ensures graph.Valid() && graph.nodes.Keys == old(graph.nodes.Keys)
      ensures Insertion(graph.View(), outcome, [], refused) ==
              CommitPipeline.InsertEdges(old(graph.View()), edges, limits, first)
    {
      hide GraphClass.ProvenanceGraph.Valid, AddEdgeOutcome, WithEdge;
      ghost var g := graph.View();
      outcome := first;
      var i := 0;
      assert edges[0..] == edges;
      while i < |edges|
        invariant 0 <= i <= |edges| && graph.Valid() && graph.nodes.Keys == old(graph.nodes.Keys)
        invariant CommitPipeline.InsertEdges(graph.View(), edges[i..], limits, outcome) ==
                  CommitPipeline.InsertEdges(g, edges, limits, first)
      {
        InsertStep(graph.View(), edges, i, limits, outcome);
        var added := AddEdge(edges[i], limits);
        i := i + 1;
        if added == Duplicate {
          continue;
        }
        if added != Ok {
          return outcome, added;
        }
        if outcome == Duplicate {
          outcome := Linked;
        }
      }
      return outcome, Ok;
    }

    method InsertRecord(node: Node, edges: seq<Edge>, limits: Limits) returns (outcome: Outcome, refused: Outcome)
      requires graph.Valid() && SmallLineage(limits) && limits.maxNodes <= limits.maxVisited
      modifies graph
      ensures graph.Valid() && SmallLineage(limits)
      ensures Insertion(graph.View(), outcome, edges, refused) ==
              CommitPipeline.InsertRecord(old(graph.View()), node, edges, limits)
    {
      hide GraphClass.ProvenanceGraph.Valid, ValidateNode, CanonCore, CommitPipeline.InsertEdges;
      var added := graph.AddNode(node, limits);
      if added != Ok && added != Duplicate {
        return Created, added;
      }
      outcome, refused := InsertEdges(edges, limits, if added == Duplicate then Duplicate else Created);
    }

    method InsertLink(edge: Edge, limits: Limits) returns (outcome: Outcome, listed: seq<Edge>, refused: Outcome)
      requires graph.Valid() && SmallLineage(limits)
      modifies graph
      ensures graph.Valid() && graph.nodes.Keys == old(graph.nodes.Keys)
      ensures Insertion(graph.View(), outcome, listed, refused) ==
              CommitPipeline.InsertLink(old(graph.View()), edge, limits)
    {
      hide GraphClass.ProvenanceGraph.Valid, AddEdgeOutcome;
      var added := AddEdge(edge, limits);
      if added != Ok && added != Duplicate {
        return Linked, [edge], added;
      }
      return if added == Duplicate then Duplicate else Linked, [edge, edge], Ok;
    }

    method InsertBatch(r: Request, node: Node, edges: seq<Edge>, limits: Limits)
      returns (outcome: Outcome, listed: seq<Edge>, refused: Outcome)
      requires graph.Valid() && SmallLineage(limits) && limits.maxNodes <= limits.maxVisited
      requires r.kind == LinkKind ==> edges != []
      modifies graph
      ensures graph.Valid() && SmallLineage(limits)
      ensures Insertion(graph.View(), outcome, listed, refused) ==
              CommitPipeline.InsertBatch(old(graph.View()), r, node, edges, limits)
    {
      hide GraphClass.ProvenanceGraph.Valid, CommitPipeline.InsertRecord, CommitPipeline.InsertLink;
      if r.kind == LinkKind {
        outcome, listed, refused := InsertLink(edges[0], limits);
      } else {
        outcome, refused := InsertRecord(node, edges, limits);
        listed := edges;
      }
    }

    // -------------------------------------------------------------------------------------
    // Stage 14: the transition of each kind of request
    // -------------------------------------------------------------------------------------

    method MoveRouteState(edges: seq<Edge>, r: Request, node: Node) returns (touched: seq<nat>)
      requires graph.Valid()
      modifies this`state, graph
      ensures graph.Valid() && graph.nodes.Keys == old(graph.nodes.Keys) && state.id == old(state.id)
      ensures Moved(state, graph.View(), [], Elements(touched)) ==
              CommitPipeline.MoveRouteState(old(state), old(graph.View()), edges, r, node)
    {
      hide GraphClass.ProvenanceGraph.Valid, UpdateNodeState, UpdateNodeStateOutcome;
      touched := [];
      var previous := state.currentNode;
      state := state.(generation := r.generation);
      if previous in graph.nodes && previous != node.id {
        var next := Historical;
        var i := 0;
        while i < |edges|
          invariant 0 <= i <= |edges|
          invariant next == DisplacedLifecycle(edges[..i], previous)
        {
          if edges[i].etype == Supersedes && edges[i].to == previous {
            next := Superseded;
          }
          assert edges[..i + 1] == edges[..i] + [edges[i]];
          i := i + 1;
        }
        assert edges[..i] == edges;
        var _ := graph.UpdateNodeState(previous, next, HistoricalOnly, false);
        touched := [previous];
      }
      if state.lifecycle == Withdrawn {
        state := state.(lifecycle := Active);
      }
      state := state.(currentNode := node.id);
    }

    /** Re-binds the causal predecessors of a corrected record to its replacement. */
    method Rebind(env: Env, target: nat, from: nat, authority: Authority) returns (rebound: seq<Edge>)
      requires graph.Valid() && SmallLineage(env.limits)
      modifies graph
      ensures graph.Valid() && graph.nodes.Keys == old(graph.nodes.Keys)
      ensures RebindAll(env, old(graph.View()), old(graph.View()), Sorted(EdgesAt(old(graph.View()), Outgoing, target)),
                        from, authority) == Insertion(graph.View(), Ok, rebound, Ok)
    {
      hide GraphClass.ProvenanceGraph.Valid, AddEdgeOutcome, WithEdge, Rebound, RebindAll, IsSuccessorRelation,
           Sorted, EdgesAt, Enumerates, Listing;
      ghost var g := graph.View();
      OutgoingAll(g, target);
      var ids := graph.OutgoingIds(target);
      var original := graph.edges;
      rebound := [];
      var i := 0;
      assert ids[0..] == ids;
      ListingNothing(RebindAll(env, g, g, ids, from, authority));
      while i < |ids|
        invariant 0 <= i <= |ids| && graph.Valid() && graph.nodes.Keys == old(graph.nodes.Keys)
        invariant Listing(rebound, RebindAll(env, g, graph.View(), ids[i..], from, authority)) ==
                  RebindAll(env, g, g, ids, from, authority)
      {
        RebindStep(env, g, graph.View(), ids, i, from, authority, rebound);
        var e := original[ids[i]];
        if IsSuccessorRelation(e.etype) {
          var copy := Rebound(env, e, from, authority);
          var added := AddEdge(copy, env.limits);
          if added == Ok {
            rebound := rebound + [copy];
          }
        }
        i := i + 1;
      }
      RebindNothing(env, g, graph.View(), ids[i..], from, authority, rebound);
    }

    method MoveCorrection(env: Env, r: Request, node: Node) returns (rebound: seq<Edge>, touched: seq<nat>)
      requires graph.Valid() && SmallLineage(env.limits)
      modifies this`state, graph
      ensures graph.Valid() && graph.nodes.Keys == old(graph.nodes.Keys) && state.id == old(state.id)
      ensures Moved(state, graph.View(), rebound, Elements(touched)) ==
              CommitPipeline.MoveCorrection(env, old(state), old(graph.View()), r, node)
    {
      hide GraphClass.ProvenanceGraph.Valid, UpdateNodeState, UpdateNodeStateOutcome, SetCorrectedBy, RebindAll,
        Sorted, EdgesAt, CommitPipeline.MoveCorrection;
      ghost var g := graph.View();
      rebound := Rebind(env, r.target, node.id, r.authority);
      CorrectionMoves(env, state, g, r, node, graph.View(), rebound);
      var _ := graph.SetCorrectedBy(r.target, node.id);
      var _ := graph.UpdateNodeState(r.target, Invalid, HistoricalOnly, false);
      if state.currentNode == r.target {
        state := state.(currentNode := node.id);
      }
      touched := [r.target, node.id];
    }

    method MoveTarget(r: Request) returns (touched: seq<nat>)
      requires graph.Valid()
      modifies this`state, graph
      ensures graph.Valid() && graph.nodes.Keys == old(graph.nodes.Keys) && state.id == old(state.id)
      ensures Moved(state, graph.View(), [], Elements(touched)) ==
              CommitPipeline.MoveTarget(old(state), old(graph.View()), r)
    {
      hide GraphClass.ProvenanceGraph.Valid, UpdateNodeState, UpdateNodeStateOutcome, GraphModel.MarkRevalidated,
        Saturating;
      touched := [r.target];
      match r.kind
      case WithdrawalKind =>
        var _ := graph.UpdateNodeState(r.target, Historical, HistoricalOnly, false);
        state := state.(lifecycle := Withdrawn);
      case RevocationKind =>
        var _ := graph.UpdateNodeState(r.target, Revoked, HistoricalOnly, false);
        state := state.(lifecycle := RevokedLineage);
      case RetirementKind =>
        var _ := graph.UpdateNodeState(r.target, Retired, HistoricalOnly, false);
        state := state.(lifecycle := RetiredLineage);
      case RevalidationKind =>
        var _ := graph.UpdateNodeState(r.target, Current, NeedsRevalidation, false);
        var _ := graph.MarkRevalidated(r.target);
        state := state.(authorityGeneration := Saturating(state.authorityGeneration));
      case InvalidationKind =>
        var _ := graph.UpdateNodeState(r.target, Invalid, HistoricalOnly, false);
      case _ =>
        touched := [];
    }

    method Move(env: Env, edges: seq<Edge>, r: Request, node: Node) returns (rebound: seq<Edge>, touched: seq<nat>)
      requires graph.Valid() && SmallLineage(env.limits)
      modifies this`state, graph
      ensures graph.Valid() && graph.nodes.Keys == old(graph.nodes.Keys) && state.id == old(state.id)
      ensures Moved(state, graph.View(), rebound, Elements(touched)) ==
              CommitPipeline.Move(env, old(state), old(graph.View()), edges, r, node)
    {
      hide GraphClass.ProvenanceGraph.Valid, CommitPipeline.MoveRouteState, CommitPipeline.MoveCorrection,
        CommitPipeline.MoveTarget;
      rebound := [];
      if r.kind == RouteStateKind {
        touched := MoveRouteState(edges, r, node);
      } else if r.kind == CorrectionKind {
        rebound, touched := MoveCorrection(env, r, node);
      } else {
        touched := MoveTarget(r);
      }
    }

    method Promote(id: nat)
      requires graph.Valid()
      modifies graph
      ensures graph.Valid() && graph.nodes.Keys == old(graph.nodes.Keys) &&
              graph.View() == CommitPipeline.Promote(old(graph.View()), id)
    {
      if id in graph.nodes && graph.nodes[id].lifecycle == Declared {
        var _ := graph.UpdateNodeState(id, Current, graph.nodes[id].currentness, false);
      }
    }

    method PromoteAll(edges: seq<Edge>)
      requires graph.Valid()
      modifies graph
      ensures graph.Valid() && graph.nodes.Keys == old(graph.nodes.Keys) &&
              graph.View() == CommitPipeline.PromoteAll(old(graph.View()), edges)
    {
      hide GraphClass.ProvenanceGraph.Valid, CommitPipeline.Promote;
      ghost var g := graph.View();
      assert edges[0..] == edges;
      var i := 0;
      while i < |edges|
        invariant 0 <= i <= |edges| && graph.Valid() && graph.nodes.Keys == old(graph.nodes.Keys)
        invariant CommitPipeline.PromoteAll(graph.View(), edges[i..]) == CommitPipeline.PromoteAll(g, edges)
      {
        PromoteStep(graph.View(), edges, i);
        if IsEvidenceRelation(edges[i].etype) {
          Promote(edges[i].to);
        }
        i := i + 1;
      }
    }

    // -------------------------------------------------------------------------------------
    // Stage 14: bookkeeping, re-evaluation and the ledger
    // -------------------------------------------------------------------------------------

    method Bookkeep(r: Request)
      modifies this`state
      ensures state == CommitPipeline.Bookkeep(old(state), r) && state.id == old(state.id)
    {
      var boot := r.authority.boot;
      var newBoot := state.lastBoot == 0 || state.lastBoot != boot;
      state := state.(lineageGeneration := Saturating(state.lineageGeneration));
      if newBoot {
        state := state.(authorityGeneration := Saturating(state.authorityGeneration), lastBoot := boot);
      }
    }

    /** The transition of an accepted request, up to and including promotion. */
    method Turn(env: Env, r: Request, node: Node, listed: seq<Edge>)
      returns (edges: seq<Edge>, touched: seq<nat>, ghost moved: Moved)
      requires graph.Valid() && SmallLineage(env.limits)
      modifies this`state, graph
      ensures graph.Valid() && graph.nodes.Keys == old(graph.nodes.Keys) && state.id == old(state.id)
      ensures moved == Turned(env, old(state), old(graph.View()), r, node, listed)
      ensures edges == listed + moved.edges && Elements(touched) == moved.touched && state == moved.state
      ensures graph.View() == Promoted(r, moved, edges)
    {
      hide GraphClass.ProvenanceGraph.Valid, CommitPipeline.Move, CommitPipeline.Bookkeep, CommitPipeline.Promote,
           CommitPipeline.PromoteAll, Elements;
      Bookkeep(r);
      var rebound;
      rebound, touched := Move(env, listed, r, node);
      moved := Moved(state, graph.View(), rebound, Elements(touched));
      edges := listed + rebound;
      if r.kind == LinkKind {
        Promote(r.target);
      } else {
        PromoteAll(edges);
      }
    }

    /** The counters and the digest that every accepted request leaves behind. */
    method Count(digest: nat)
      requires graph.Valid()
      modifies this`state
      ensures state == Counted(old(state), graph.View(), digest)
    {
      hide HistoryRecords, GraphClass.ProvenanceGraph.Valid;
      var history := CountHistory();
      state := state.(nodeCount := |graph.nodes|, edgeCount := |graph.edges|, historyCount := history,
                      lastDigest := digest);
    }

    /** The accepted change of the lineage, once its batch is inserted. */
    method Settle(env: Env, ghost s: Store, ghost was: Lineage, marks: Watermarks, publishers: Registry, r: Request,
                  node: Node,
                  outcome: Outcome, listed: seq<Edge>)
      returns (record: AttemptRecord)
      requires graph.Valid() && SmallLineage(env.limits) && marks == s.marks && publishers == s.publishers
      requires was.state == state && was.attempts == attempts
      modifies this, graph
      ensures graph.Valid() && SmallLineage(env.limits) && state.id == old(state.id)
      ensures View() == CommitPipeline.Settle(env, s, was, r, node,
                                              Insertion(old(graph.View()), outcome, listed, Ok))
      ensures AttemptKeyOf(r.authority) in attempts && record == attempts[AttemptKeyOf(r.authority)]
    {
      hide GraphClass.ProvenanceGraph.Valid, CommitPipeline.Settle, Turned, Promoted, Refresh, HistoryRecords, Elements,
           EdgeTargets, Affected, LedgerEntry;
      SettleIs(env, s, was, r, node, Insertion(graph.View(), outcome, listed, Ok));
      var digest := env.RequestDigest(r);
      var edges, touched, moved := Turn(env, r, node, listed);
      Count(digest);
      ghost var g := graph.View();
      var affected := (if r.kind == LinkKind then [r.linkFrom, r.target] else [node.id] + EdgeTargets(listed)) +
          touched;
      var _ := Reevaluate(affected, marks, publishers);
      var _ := Reevaluate([state.currentNode], marks, publishers);
      RefreshTwice(state, g, marks, publishers, Elements(affected), Elements([state.currentNode]));
      AffectedIs(r, node, listed, moved, touched);
      RefreshKeepsKeys(state, g, marks, publishers, Elements(affected) + Elements([state.currentNode]));
      record := LedgerEntry(digest, Named(r, node), outcome, edges, graph.nodes);
      attempts := attempts[AttemptKeyOf(r.authority) := record];
    }

    // -------------------------------------------------------------------------------------
    // Compaction
    // -------------------------------------------------------------------------------------

    /** The records the traversal from the present explanation protects; none when it overflows. */
    method Ancestry(env: Env, options: CompactOptions) returns (kept: set<nat>)
      requires graph.Valid() && env.limits.Positive()
      ensures kept == RetainedAncestry(env, View(), options)
    {
      hide GraphClass.ProvenanceGraph.Valid, ExactTraversal, FilteredArcs, EdgeArcs, Ball;
      var limits := env.limits;
      kept := {};
      graph.NoZero();
      if state.currentNode != 0 {
        var bounds := Bounds(if options.retainDepth == 0 then limits.maxDepth else options.retainDepth, 0, 0);
        var status, out := graph.Traverse(state.currentNode, Outgoing, bounds, limits, ALL_TYPES);
        UnfilteredArcs(graph.View());
        if status == Ok {
          TraversedIsBall(graph.View(), state.currentNode, Effective(bounds.maxDepth, limits.maxDepth), out);
        }
        kept := EntryIds(out.nodes);
      }
    }

    method Protect(env: Env, options: CompactOptions) returns (kept: set<nat>)
      requires graph.Valid() && env.limits.Positive()
      ensures kept == Protected(env, View(), options)
    {
      hide GraphClass.ProvenanceGraph.Valid, RetainedAncestry, NeedingRevalidation, Protected, Sorted, Enumerates;
      ghost var g := graph.View();
      var ids := Sorted(graph.nodes.Keys);
      NeedingAll(g);
      ProtectedIs(env, View(), options);
      var pending: set<nat> := {};
      var i := 0;
      while i < |ids|
        invariant 0 <= i <= |ids| && pending == NeedingRevalidation(g, ids[..i])
      {
        NeedingStep(g, ids, i);
        var n := graph.nodes[ids[i]];
        if n.currentness == IsCurrent || n.revalidationRequired {
          pending := pending + {ids[i]};
        }
        i := i + 1;
      }
      var ancestry := Ancestry(env, options);
      kept := {state.currentNode} + pending + ancestry;
    }

    method Choose(env: Env, options: CompactOptions) returns (keys: seq<Pair>)
      requires graph.Valid() && env.limits.Positive()
      ensures keys == SortedPairs(Candidates(env, View(), options))
    {
      hide GraphClass.ProvenanceGraph.Valid, Protected, CandidatesAmong, IsHistoryRecord, Candidates, Sorted,
        Enumerates;
      var kept := Protect(env, options);
      ghost var g := graph.View();
      var ids := Sorted(graph.nodes.Keys);
      CandidatesAll(env, View(), options);
      var candidates: set<Pair> := {};
      var i := 0;
      while i < |ids|
        invariant 0 <= i <= |ids| && candidates == CandidatesAmong(g, kept, ids[..i])
      {
        CandidateStep(g, kept, ids, i);
        var n := graph.nodes[ids[i]];
        if IsHistoryRecord(n) && ids[i] !in kept {
          candidates := candidates + {(n.core.generation, ids[i])};
        }
        i := i + 1;
      }
      return SortedPairs(candidates);
    }

    /** Replaces the oldest candidates by tombstones, as far as the budget goes. */
    method Compact(env: Env, a: Authority, options: CompactOptions) returns (count: nat, refused: Outcome)
      requires graph.Valid() && env.limits.Positive()
      modifies graph
      ensures graph.Valid() && graph.nodes.Keys == old(graph.nodes.Keys) && |graph.nodes| == |old(graph.nodes)|
      ensures Compaction(graph.View(), count, refused) == CompactLineage(env, old(View()), a, options)
    {
      hide GraphClass.ProvenanceGraph.Valid, Candidates, CompactAll, Tombstone, CompactNodeOutcome,
           SortedPairs;
      ghost var lin := View();
      var keys := Choose(env, options);
      CandidatesListed(env, lin, options);
      var budget := CompactionBudget(env, options);
      ghost var whole := CompactAll(env, lin.graph, keys, budget, a);
      count := 0;
      var i := 0;
      assert keys[0..] == keys;
      while i < |keys| && budget > 0
        invariant 0 <= i <= |keys| && graph.Valid() && graph.nodes.Keys == old(graph.nodes.Keys)
        invariant |graph.nodes| == |old(graph.nodes)|
        invariant AllNodes(graph.View(), keys)
        invariant Counting(count, CompactAll(env, graph.View(), keys[i..], budget, a)) == whole
      {
        CompactStep(env, graph.View(), keys, i, budget, a, count);
        budget := budget - 1;
        var id := keys[i].1;
        var compacted := graph.CompactNode(id, Tombstone(env, graph.nodes[id], a));
        if compacted != Ok {
          return count, compacted;
        }
        count := count + 1;
        i := i + 1;
      }
      CompactDone(env, graph.View(), keys[i..], budget, a, count);
      return count, Ok;
    }

    // -------------------------------------------------------------------------------------
    // Load
    // -------------------------------------------------------------------------------------

    method LoadNodes(nodes: seq<Node>, limits: Limits) returns (ok: bool)
      requires graph.Valid() && SmallLineage(limits) && limits.maxNodes <= limits.maxVisited
      modifies graph
      ensures graph.Valid() && SmallLineage(limits) && graph.derivations == old(graph.derivations)
      ensures Images.LoadNodes(old(graph.View()), nodes, limits) ==
              if ok then Success(graph.View()) else Failure(StoreCorrupt)
    {
      hide GraphClass.ProvenanceGraph.Valid, ValidateNode, CanonCore;
      ghost var g := graph.View();
      assert nodes[0..] == nodes;
      var i := 0;
      while i < |nodes|
        invariant 0 <= i <= |nodes| && graph.Valid() && SmallLineage(limits) &&
                  graph.derivations == old(graph.derivations)
        invariant Images.LoadNodes(graph.View(), nodes[i..], limits) == Images.LoadNodes(g, nodes, limits)
      {
        LoadNodesStep(graph.View(), nodes, i, limits);
        var added := graph.AddNode(nodes[i], limits);
        if added != Ok {
          return false;
        }
        i := i + 1;
      }
      return true;
    }

    method LoadEdges(edges: seq<Edge>, limits: Limits) returns (ok: bool)
      requires graph.Valid() && SmallLineage(limits)
      modifies graph
      ensures graph.Valid() && SmallLineage(limits)
      ensures Images.LoadEdges(old(graph.View()), edges, limits) ==
              if ok then Success(graph.View()) else Failure(StoreCorrupt)
      ensures ok ==> graph.derivations == Derivations(old(graph.derivations), edges)
    {
      hide GraphClass.ProvenanceGraph.Valid, AddEdgeOutcome, WithEdge, GraphClass.WithDerivation;
      ghost var g := graph.View();
      assert edges[0..] == edges;
      var i := 0;
      while i < |edges|
        invariant 0 <= i <= |edges| && graph.Valid() && graph.nodes.Keys == old(graph.nodes.Keys) &&
                  SmallLineage(limits)
        invariant Images.LoadEdges(graph.View(), edges[i..], limits) == Images.LoadEdges(g, edges, limits)
        invariant Derivations(graph.derivations, edges[i..]) == Derivations(old(graph.derivations), edges)
      {
        LoadEdgesStep(graph.View(), edges, i, limits);
        DerivationsStep(graph.derivations, edges, i);
        var added := AddEdge(edges[i], limits);
        if added != Ok {
          return false;
        }
        i := i + 1;
      }
      return true;
    }

    /** Every record and edge re-added to an empty graph, and the independent structural check. */
    method Rebuild(stored: StoredLineage, limits: Limits) returns (ok: bool)
      requires graph.Valid() && SmallLineage(limits) && limits.maxNodes <= limits.maxVisited
      requires graph.View() == EMPTY_GRAPH && graph.derivations == map[]
      modifies graph
      ensures graph.Valid() && SmallLineage(limits)
      ensures Rebuilt(stored, limits) == if ok then Success(graph.View()) else Failure(StoreCorrupt)
    {
      hide GraphClass.ProvenanceGraph.Valid, Images.LoadNodes, Images.LoadEdges, WellFormed, StructureOk, Derivations;
      ok := LoadNodes(stored.nodes, limits);
      if ok {
        ok := LoadEdges(stored.edges, limits);
      }
      if ok {
        graph.NoZero();
        graph.IndexedIsListed();
        var structure := graph.ValidateStructure();
        ok := structure == Ok;
      }
    }

    method LoadAttempts(stored: seq<StoredAttempt>)
      modifies this`attempts
      ensures attempts == Images.LoadAttempts(old(attempts), stored)
    {
      assert stored[0..] == stored;
      var i := 0;
      while i < |stored|
        invariant 0 <= i <= |stored|
        invariant Images.LoadAttempts(attempts, stored[i..]) == Images.LoadAttempts(old(attempts), stored)
      {
        LoadAttemptsStep(attempts, stored, i);
        var k := (stored[i].publisher, stored[i].attempt);
        if k !in attempts {
          attempts := attempts[k := stored[i].record];
        }
        i := i + 1;
      }
    }

    /** Conservative recovery: what a live session vouched for needs revalidation. */
    method Demote() returns (ok: bool)
      requires graph.Valid()
      modifies graph
      ensures graph.Valid() && graph.nodes.Keys == old(graph.nodes.Keys) && |graph.nodes| == |old(graph.nodes)|
      ensures ok && graph.View() == Images.Demote(old(graph.View()))
    {
      hide GraphClass.ProvenanceGraph.Valid, DemoteSome, Images.Demote, UpdateNodeState, UpdateNodeStateOutcome, Sorted,
           Enumerates, Elements;
      ghost var g := graph.View();
      var ids := Sorted(graph.nodes.Keys);
      OrderedIds(g);
      DemoteEnds(g);
      ElementsAll(ids);
      ElementsSorted(graph.nodes.Keys);
      var i := 0;
      while i < |ids|
        invariant 0 <= i <= |ids| && graph.Valid() && graph.nodes.Keys == old(graph.nodes.Keys)
        invariant |graph.nodes| == |old(graph.nodes)|
        invariant graph.View() == DemoteSome(g, Elements(ids[..i]))
      {
        DemoteStep(g, Elements(ids[..i]), ids[i]);
        ElementsPrefix(ids, i);
        if VouchedFor(graph.nodes[ids[i]]) {
          var demoted := graph.UpdateNodeState(ids[i], RevalidationRequired, NeedsRevalidation, true);
          if demoted != Ok {
            return false;
          }
        }
        i := i + 1;
      }
      return true;
    }

    method CountCompacted() returns (n: nat)
      ensures n == |CompactedRecords(graph.View())|
    {
      hide *;
      CompactedAll(graph.View());
      graph.ViewIs();
      var ids := Sorted(graph.nodes.Keys);
      n := 0;
      var i := 0;
      while i < |ids|
        invariant 0 <= i <= |ids| && n == |CompactedAmong(graph.View(), ids[..i])|
      {
        CompactedStep(graph.View(), ids, i);
        if graph.nodes[ids[i]].core.kind == CompactedSummary {
          n := n + 1;
        }
        i := i + 1;
      }
    }

    /** The rest of loading a lineage whose structure is sound. */
    method Recover(stored: seq<StoredAttempt>, limits: Limits) returns (ok: bool)
      requires graph.Valid() && SmallLineage(limits) && attempts == map[]
      modifies this, graph
      ensures graph.Valid() && SmallLineage(limits) && state.id == old(state.id)
      ensures LoadedAs(old(state), old(graph.View()), Images.LoadAttempts(map[], stored)) ==
              if ok then Success(View()) else Failure(StoreCorrupt)
    {
      hide GraphClass.ProvenanceGraph.Valid, HistoryRecords, CompactedRecords, Images.LoadAttempts, Images.Demote;
      LoadAttempts(stored);
      var demoted := Demote();
      if !demoted {
        return false;
      }
      var history := CountHistory();
      var compacted := CountCompacted();
      state := state.(nodeCount := |graph.nodes|, edgeCount := |graph.edges|, historyCount := history,
                      compactedCount := compacted);
      return state.currentNode == 0 || state.currentNode in graph.nodes;
    }

    /** reevaluate_all. */
    method ReevaluateAll(marks: Watermarks, publishers: Registry)
      requires graph.Valid()
      modifies graph
      ensures graph.Valid() && |graph.nodes| == |old(graph.nodes)|
      ensures graph.View() == Refresh(state, old(graph.View()), marks, publishers, old(graph.nodes.Keys))
    {
      hide GraphClass.ProvenanceGraph.Valid, Refresh, Sorted, Enumerates, Elements;
      ElementsSorted(graph.nodes.Keys);
      var reevaluated := Reevaluate(Sorted(graph.nodes.Keys), marks, publishers);
    }
  }

  /** Rebuilds one stored lineage through the graph's own checks. */
  method LoadLineageObject(stored: StoredLineage, limits: Limits) returns (r: Option<LineageObject>)
    requires limits.maxNodes <= limits.maxVisited
    ensures LoadLineage(stored, limits) == if r.Some? then Success(r.value.View()) else Failure(StoreCorrupt)
    ensures r.Some? ==>
              && fresh(r.value) && fresh(r.value.graph) && r.value.graph.Valid() && r.value.SmallLineage(limits)
              && r.value.state.id == stored.state.id
  {
    hide GraphClass.ProvenanceGraph.Valid, Rebuilt, LoadedAs, LoadAttempts;
    var lin := new LineageObject(stored.state.id, stored.state.key);
    lin.state := stored.state;
    var rebuilt := lin.Rebuild(stored, limits);
    if !rebuilt {
      return None;
    }
    var recovered := lin.Recover(stored.attempts, limits);
    return if recovered then Some(lin) else None;
  }

  function EdgeTargets(edges: seq<Edge>): seq<nat> {
    seq(|edges|, i requires 0 <= i < |edges| => edges[i].to)
  }

  lemma TargetsSet(edges: seq<Edge>)
    ensures Elements(EdgeTargets(edges)) == HeadSet(edges)
  {
    var ids := EdgeTargets(edges);
    forall x | x in HeadSet(edges) ensures x in ids {
      var i :| 0 <= i < |edges| && edges[i].to == x;
      assert ids[i] == x;
    }
  }

  lemma RebindNothing(env: Env, original: Graph, g: Graph, ids: seq<nat>, from: nat, authority: Authority,
                      done: seq<Edge>)
    requires ids == []
    ensures Listing(done, RebindAll(env, original, g, ids, from, authority)) == Insertion(g, Ok, done, Ok)
  {
    assert done + [] == done;
  }
}
