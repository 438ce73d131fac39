// Saving a reachable store: its image passes every check of the decoder, so what was written is
// read back.
module Persistence {
  import opened Types
  import opened Ordering
  import opened Digraph
  import opened GraphModel
  import opened StoreTypes
  import opened CommitPipeline
  import opened Soundness
  import opened Admission
  import opened LineageSteps
  import opened CommitSteps
  import opened Growth
  import opened Progress
  import opened Operations
  import opened Runs
  import opened Images
  import opened Structure
  import opened Recovery
  import opened Bytes
  import opened EvidenceVectors
  import opened Codec
  import opened ImageCodec

  // ---------------------------------------------------------------------------------------
  // Stored forms keep identity
  // ---------------------------------------------------------------------------------------

  /** Identity and consistency do not see the difference between absent and present-but-zero. */
  lemma StoredNodeKeeps(env: Env, n: Node)
    ensures StoredNode(n).id == n.id && StoredNode(n).core.lineage == n.core.lineage
    ensures StoredNode(n).core.kind == n.core.kind && env.NodeId(StoredNode(n).core) == env.NodeId(n.core)
    ensures ValidateNode(n) == Ok ==> ValidateNode(StoredNode(n)) == Ok
  {
    assert CanonCore(StoredNode(n).core) == CanonCore(n.core);
  }

  lemma StoredEdgeKeeps(env: Env, e: Edge)
    ensures
      var f := StoredEdge(e);
      && f.id == e.id && f.derivation == e.derivation && f.lineage == e.lineage && f.from == e.from && f.to == e.to
      && ValidateEdge(f) == ValidateEdge(e)
    ensures e == env.FinalizeEdge(e) ==> StoredEdge(e) == env.FinalizeEdge(StoredEdge(e))
  {
    assert CanonEdge(StoredEdge(e)) == CanonEdge(e);
  }

  lemma FinalizedIds(env: Env, e: Edge)
    requires e == env.FinalizeEdge(e)
    ensures e.derivation == env.DerivationId(e) && e.id == env.EdgeId(e)
  {
    assert CanonEdge(e.(derivation := env.DerivationId(e))) == CanonEdge(e);
  }

  // ---------------------------------------------------------------------------------------
  // Per-record checks
  // ---------------------------------------------------------------------------------------

  predicate NodeConsistent(env: Env, lid: nat, n: Node) {
    && n.core.lineage == lid && n.id != 0 && ValidateNode(n) == Ok
    && (n.core.kind != CompactedSummary ==> n.id == env.NodeId(n.core))
  }

  predicate DistinctNodes(nodes: seq<Node>) {
    forall i, j :: 0 <= i < j < |nodes| ==> nodes[i].id != nodes[j].id
  }

  function NodeIdSet(nodes: seq<Node>): set<nat> {
    set n | n in nodes :: n.id
  }

  function SeeNodes(seen: Seen, nodes: seq<Node>): Seen {
    seen.(nodes := seen.nodes + NodeIdSet(nodes))
  }

  lemma NodeIdSetCons(nodes: seq<Node>)
    ensures nodes == [] ==> NodeIdSet(nodes) == {}
    ensures nodes != [] ==> NodeIdSet(nodes) == {nodes[0].id} + NodeIdSet(nodes[1..])
    ensures nodes != [] && DistinctNodes(nodes) ==> nodes[0].id !in NodeIdSet(nodes[1..])
  {
    if nodes != [] {
      assert nodes == [nodes[0]] + nodes[1..];
    }
  }

  lemma {:induction false} ConsistentNodesAccepted(env: Env, lid: nat, seen: Seen, nodes: seq<Node>)
    requires forall n :: n in nodes ==> NodeConsistent(env, lid, n)
    requires DistinctNodes(nodes) && seen.nodes !! NodeIdSet(nodes)
    ensures AcceptNodes(env, lid, seen, nodes) == Some(SeeNodes(seen, nodes))
    decreases |nodes|
  {
    hide ValidateNode, CanonCore, StoredNode, NodeIdSet;
    NodeIdSetCons(nodes);
    if nodes == [] {
      assert SeeNodes(seen, nodes) == seen;
    } else {
      assert nodes[0] in nodes && nodes[0].id in NodeIdSet(nodes);
      StoredNodeKeeps(env, nodes[0]);
      ConsistentNodesAccepted(env, lid, SeeNode(seen, nodes[0]), nodes[1..]);
      assert SeeNodes(SeeNode(seen, nodes[0]), nodes[1..]).nodes == SeeNodes(seen, nodes).nodes;
    }
  }

  predicate EdgeConsistent(env: Env, lid: nat, e: Edge) {
    e.lineage == lid && ValidateEdge(e) == Ok && e == env.FinalizeEdge(e)
  }

  predicate DistinctDerivations(edges: seq<Edge>) {
    forall i, j :: 0 <= i < j < |edges| ==> edges[i].id != edges[j].id && edges[i].derivation != edges[j].derivation
  }

  function EdgeIdSet(edges: seq<Edge>): set<nat> {
    set e | e in edges :: e.id
  }

  function DerivationSet(edges: seq<Edge>): set<nat> {
    set e | e in edges :: e.derivation
  }

  function SeeEdges(seen: Seen, edges: seq<Edge>): Seen {
    seen.(edges := seen.edges + EdgeIdSet(edges), derivations := seen.derivations + DerivationSet(edges))
  }

  lemma EdgeIdSetCons(edges: seq<Edge>)
    ensures edges == [] ==> EdgeIdSet(edges) == {} && DerivationSet(edges) == {}
    ensures edges != [] ==> EdgeIdSet(edges) == {edges[0].id} + EdgeIdSet(edges[1..])
    ensures edges != [] ==> DerivationSet(edges) == {edges[0].derivation} + DerivationSet(edges[1..])
    ensures edges != [] && DistinctDerivations(edges) ==>
              edges[0].id !in EdgeIdSet(edges[1..]) && edges[0].derivation !in DerivationSet(edges[1..])
  {
    if edges != [] {
      assert edges == [edges[0]] + edges[1..];
    }
  }

  lemma {:induction false} ConsistentEdgesAccepted(env: Env, lid: nat, seen: Seen, edges: seq<Edge>)
    requires (forall e :: e in edges ==> EdgeConsistent(env, lid, e)) && DistinctDerivations(edges)
    requires seen.edges !! EdgeIdSet(edges) && seen.derivations !! DerivationSet(edges)
    ensures AcceptEdges(env, lid, seen, edges) == Some(SeeEdges(seen, edges))
    decreases |edges|
  {
    hide ValidateEdge, StoredEdge, Env.FinalizeEdge, Env.DerivationId, Env.EdgeId, EdgeIdSet, DerivationSet;
    EdgeIdSetCons(edges);
    if edges == [] {
      assert SeeEdges(seen, edges) == seen;
    } else {
      assert edges[0] in edges && edges[0].id in EdgeIdSet(edges) && edges[0].derivation in DerivationSet(edges);
      var next := SeeEdge(seen, edges[0]);
      StoredEdgeKeeps(env, edges[0]);
      FinalizedIds(env, StoredEdge(edges[0]));
      ConsistentEdgesAccepted(env, lid, next, edges[1..]);
      assert SeeEdges(next, edges[1..]).edges == SeeEdges(seen, edges).edges;
      assert SeeEdges(next, edges[1..]).derivations == SeeEdges(seen, edges).derivations;
    }
  }

  // ---------------------------------------------------------------------------------------
  // One lineage of a sound store
  // ---------------------------------------------------------------------------------------

  /** The key a value of the list is held under. */
  lemma KeyOf<T>(m: map<nat, T>, x: T) returns (k: nat)
    requires x in InOrder(m)
    ensures k in m && m[k] == x
  {
    hide InOrder, Sorted;
    var i :| 0 <= i < |InOrder(m)| && InOrder(m)[i] == x;
    k := Sorted(m.Keys)[i];
  }

  lemma ExportedNodes(env: Env, lid: nat, lin: Lineage)
    requires LineageSound(env, lid, lin)
    ensures forall n :: n in InOrder(lin.graph.nodes) ==> NodeConsistent(env, lid, n)
    ensures DistinctNodes(InOrder(lin.graph.nodes))
    ensures NodeIdSet(InOrder(lin.graph.nodes)) == lin.graph.nodes.Keys
  {
    hide LineageSound, ValidateNode, Sorted, InOrder, HasOrigin;
    var g, nodes := lin.graph, InOrder(lin.graph.nodes);
    SoundIsWellFormed(env, lid, lin);
    forall n | n in nodes ensures NodeConsistent(env, lid, n) && n.id in g.nodes.Keys {
      var id := KeyOf(g.nodes, n);
      NodeIsSound(env, lid, lin, id);
    }
    forall i | 0 <= i < |nodes| ensures nodes[i].id == Sorted(g.nodes.Keys)[i] {
      NodeIsSound(env, lid, lin, Sorted(g.nodes.Keys)[i]);
    }
    forall x | x in g.nodes.Keys ensures exists n :: n in nodes && n.id == x {
      var i := ListedAt(g.nodes, x);
      assert nodes[i] in nodes;
    }
  }

  ghost function DerivationsOf(g: Graph): set<nat> {
    set e | e in g.edges :: g.edges[e].derivation
  }

  lemma ExportedEdges(env: Env, lid: nat, lin: Lineage)
    requires env.CollisionFree() && LineageSound(env, lid, lin)
    ensures forall e :: e in InOrder(lin.graph.edges) ==> EdgeConsistent(env, lid, e)
    ensures DistinctDerivations(InOrder(lin.graph.edges))
  {
    hide LineageSound, ValidateEdge, Sorted, InOrder, Env.FinalizeEdge, Env.CollisionFree;
    var g, edges := lin.graph, InOrder(lin.graph.edges);
    forall i | 0 <= i < |edges| ensures EdgeConsistent(env, lid, edges[i]) && edges[i].id == Sorted(g.edges.Keys)[i] {
      EdgeIsSound(env, lid, lin, Sorted(g.edges.Keys)[i]);
    }
    forall i, j | 0 <= i < j < |edges|
      ensures edges[i].id != edges[j].id && edges[i].derivation != edges[j].derivation
    {
      if edges[i].derivation == edges[j].derivation {
        SameDerivationSameEdge(env, edges[i], edges[j]);
      }
    }
  }

  lemma ExportedEdgesSeen(env: Env, lid: nat, lin: Lineage)
    requires LineageSound(env, lid, lin)
    ensures EdgeIdSet(InOrder(lin.graph.edges)) == lin.graph.edges.Keys
    ensures DerivationSet(InOrder(lin.graph.edges)) == DerivationsOf(lin.graph)
  {
    hide LineageSound, InOrder, Sorted, EdgeSound;
    var g, edges := lin.graph, InOrder(lin.graph.edges);
    forall e | e in edges ensures e.id in g.edges.Keys && e.derivation in DerivationsOf(g) {
      var x := KeyOf(g.edges, e);
      EdgeIsSound(env, lid, lin, x);
    }
    forall x | x in g.edges.Keys ensures g.edges[x].id == x && g.edges[x] in edges {
      var i := ListedAt(g.edges, x);
      EdgeIsSound(env, lid, lin, x);
    }
  }

  lemma ExportedHead(env: Env, lid: nat, lin: Lineage)
    requires env.CollisionFree() && LineageSound(env, lid, lin) && WithinBounds(lin, env.limits)
    ensures HeadOutcome(HeadOfLineage(Stored(lin)), env.limits) == Ok
    ensures Stored(lin).state.id == lid
  {
    hide LineageSound, GraphSound, LedgerSound, InOrder, StoredAttempts, Env.CollisionFree, WithinDegrees, CountsExact;
    LineageIdNonZero(env, lid, lin);
    SoundParts(env, lid, lin);
    GenerationPositive(env, lid, lin);
    assert lin.graph.nodes.Keys == {} <==> |lin.graph.nodes| == 0;
  }

  lemma GenerationPositive(env: Env, lid: nat, lin: Lineage)
    requires LineageSound(env, lid, lin)
    ensures lin.graph.nodes.Keys != {} ==> lin.state.lineageGeneration > 0
  {
    hide GraphSound, CurrentPresent, LedgerSound, CountsExact;
  }

  lemma ExportedAttempts(env: Env, lid: nat, lin: Lineage)
    requires LineageSound(env, lid, lin)
    ensures forall a :: a in StoredAttempts(lin.attempts) ==> AttemptAccepted(a)
  {
    hide LineageSound, GraphSound, StoredAttempts;
    SoundParts(env, lid, lin);
    SoundIsWellFormed(env, lid, lin);
    forall a | a in StoredAttempts(lin.attempts) ensures AttemptAccepted(a) {
      var i :| 0 <= i < |StoredAttempts(lin.attempts)| && StoredAttempts(lin.attempts)[i] == a;
      var k := SortedPairs(lin.attempts.Keys)[i];
      assert k in lin.attempts && lin.attempts[k].node in lin.graph.nodes;
    }
  }

  /** What the decoder has seen is none of this graph. */
  ghost predicate SeenElsewhere(seen: Seen, g: Graph) {
    seen.nodes !! g.nodes.Keys && seen.edges !! g.edges.Keys && seen.derivations !! DerivationsOf(g)
  }

  ghost function SeeGraph(seen: Seen, g: Graph): Seen {
    Seen(seen.nodes + g.nodes.Keys, seen.edges + g.edges.Keys, seen.derivations + DerivationsOf(g))
  }

  lemma ExportedNodesTaken(env: Env, seen: Seen, lid: nat, lin: Lineage)
    requires LineageSound(env, lid, lin) && seen.nodes !! lin.graph.nodes.Keys
    ensures AcceptNodes(env, lid, seen, InOrder(lin.graph.nodes)) ==
            Some(seen.(nodes := seen.nodes + lin.graph.nodes.Keys))
  {
    hide LineageSound, InOrder, DistinctNodes, AcceptNodes, NodeConsistent, NodeIdSet;
    ExportedNodes(env, lid, lin);
    ConsistentNodesAccepted(env, lid, seen, InOrder(lin.graph.nodes));
  }

  lemma ExportedEdgesTaken(env: Env, seen: Seen, lid: nat, lin: Lineage)
    requires env.CollisionFree() && LineageSound(env, lid, lin)
    requires seen.edges !! lin.graph.edges.Keys && seen.derivations !! DerivationsOf(lin.graph)
    ensures AcceptEdges(env, lid, seen, InOrder(lin.graph.edges)) ==
            Some(seen.(edges := seen.edges + lin.graph.edges.Keys,
                       derivations := seen.derivations + DerivationsOf(lin.graph)))
  {
    hide LineageSound, InOrder, DistinctDerivations, AcceptEdges, EdgeConsistent, DerivationsOf, EdgeIdSet,
      DerivationSet, Env.CollisionFree;
    ExportedEdges(env, lid, lin);
    ExportedEdgesSeen(env, lid, lin);
    ConsistentEdgesAccepted(env, lid, seen, InOrder(lin.graph.edges));
  }

  lemma ExportedLineageAccepted(env: Env, seen: Seen, lid: nat, lin: Lineage)
    requires env.CollisionFree() && LineageSound(env, lid, lin) && WithinBounds(lin, env.limits)
    requires SeenElsewhere(seen, lin.graph)
    ensures AcceptLineage(env, seen, Stored(lin)) == Some(SeeGraph(seen, lin.graph))
  {
    hide LineageSound, WithinBounds, InOrder, StoredAttempts, HeadOutcome, DerivationsOf, AcceptNodes, AcceptEdges,
      AttemptAccepted, Env.CollisionFree;
    ExportedHead(env, lid, lin);
    ExportedAttempts(env, lid, lin);
    ExportedNodesTaken(env, seen, lid, lin);
    ExportedEdgesTaken(env, seen.(nodes := seen.nodes + lin.graph.nodes.Keys), lid, lin);
  }

  // ---------------------------------------------------------------------------------------
  // All lineages
  // ---------------------------------------------------------------------------------------

  lemma EdgeLineage(env: Env, lid: nat, lin: Lineage, e: nat)
    requires LineageSound(env, lid, lin) && e in lin.graph.edges
    ensures EdgeConsistent(env, lid, lin.graph.edges[e]) && lin.graph.edges[e].id == e
  {
    hide LineageSound, Env.FinalizeEdge, ValidateEdge;
    EdgeIsSound(env, lid, lin, e);
  }

  lemma SameEdgeIdSameLineage(env: Env, a: Edge, b: Edge)
    requires env.CollisionFree() && a == env.FinalizeEdge(a) && b == env.FinalizeEdge(b) && a.id == b.id
    ensures a.lineage == b.lineage
  {
    SameEdgeIdSameContent(env, a, b);
    assert CanonEdge(a).lineage == a.lineage && CanonEdge(b).lineage == b.lineage;
  }

  /** No record, edge or derivation is in two lineages. */
  lemma LineagesApart(env: Env, s: Store, a: nat, b: nat)
    requires env.CollisionFree() && Sound(env, s) && a in s.lineages && b in s.lineages && a != b
    ensures SeenElsewhere(SeeGraph(NOTHING_SEEN, LineageAt(s, a).graph), LineageAt(s, b).graph)
  {
    hide LineageSound, Env.CollisionFree, Env.FinalizeEdge, ValidateEdge;
    var g, h := LineageAt(s, a).graph, LineageAt(s, b).graph;
    forall e, f | e in g.edges && f in h.edges ensures e != f && g.edges[e].derivation != h.edges[f].derivation {
      EdgeLineage(env, a, LineageAt(s, a), e);
      EdgeLineage(env, b, LineageAt(s, b), f);
      if g.edges[e].derivation == h.edges[f].derivation {
        SameDerivationSameEdge(env, g.edges[e], h.edges[f]);
      }
      if e == f || g.edges[e].derivation == h.edges[f].derivation {
        SameEdgeIdSameLineage(env, g.edges[e], h.edges[f]);
      }
    }
    forall id | id in g.nodes && id in h.nodes ensures false {
      OwnedOnce(s, a, b, id);
    }
  }

  lemma OwnedOnce(s: Store, a: nat, b: nat, id: nat)
    requires Owned(s) && a in s.lineages && b in s.lineages
    requires id in LineageAt(s, a).graph.nodes && id in LineageAt(s, b).graph.nodes
    ensures a == b
  {
    assert id in s.indexes.owner && s.indexes.owner[id] == a;
    assert s.indexes.owner[id] == b;
  }

  lemma StillElsewhere(seen: Seen, g: Graph, h: Graph)
    requires SeenElsewhere(seen, h) && SeenElsewhere(SeeGraph(NOTHING_SEEN, g), h)
    ensures SeenElsewhere(SeeGraph(seen, g), h)
  {
    hide DerivationsOf;
  }

  lemma {:induction false} ExportedAllRebuilt(env: Env, s: Store, seen: Seen, ids: seq<nat>)
    requires env.CollisionFree() && Loadable(env, s) && Ascending(ids)
    requires forall lid :: lid in ids ==> lid in s.lineages && SeenElsewhere(seen, LineageAt(s, lid).graph)
    ensures AllRebuilt(env, seen, StoredAll(s, ids))
    decreases |ids|
  {
    hide Loadable, AcceptLineage, Stored, Env.CollisionFree, SeenElsewhere, SeeGraph, LineageAt;
    if ids != [] {
      var lid := ids[0];
      LoadableAt(env, s, lid);
      ExportedLineageAccepted(env, seen, lid, LineageAt(s, lid));
      forall other | other in ids[1..]
        ensures other in s.lineages && SeenElsewhere(SeeGraph(seen, LineageAt(s, lid).graph), LineageAt(s, other).graph)
      {
        LoadableSound(env, s);
        LineagesApart(env, s, lid, other);
        StillElsewhere(seen, LineageAt(s, lid).graph, LineageAt(s, other).graph);
      }
      ExportedAllRebuilt(env, s, SeeGraph(seen, LineageAt(s, lid).graph), ids[1..]);
      assert StoredAll(s, ids)[1..] == StoredAll(s, ids[1..]);
    }
  }

  lemma LoadableSound(env: Env, s: Store)
    requires Loadable(env, s)
    ensures Sound(env, s)
  {
    hide Sound, AllWithin;
  }

  /** Which lineage a stored one is. */
  lemma StoredOf(s: Store, l: StoredLineage) returns (lid: nat)
    requires l in Export(s).lineages
    ensures lid in s.lineages && l == Stored(LineageAt(s, lid))
  {
    hide Stored, Sorted;
    ExportIsStoredAll(s);
    var ids := Sorted(s.lineages.Keys);
    var i :| 0 <= i < |StoredAll(s, ids)| && StoredAll(s, ids)[i] == l;
    lid := ids[i];
  }

  // ---------------------------------------------------------------------------------------
  // The structural check
  // ---------------------------------------------------------------------------------------

  function StoredGraph(g: Graph): Graph {
    Graph(map id | id in g.nodes :: StoredNode(g.nodes[id]), map e | e in g.edges :: StoredEdge(g.edges[e]))
  }

  lemma {:induction false} StoredNodesAt(nodes: seq<Node>, i: nat)
    requires i < |nodes|
    ensures |StoredNodes(nodes)| == |nodes| && StoredNodes(nodes)[i] == StoredNode(nodes[i])
    decreases |nodes|
  {
    hide StoredNode;
    StoredSizes(nodes, []);
    if i > 0 {
      StoredNodesAt(nodes[1..], i - 1);
    }
  }

  lemma {:induction false} StoredEdgesAt(edges: seq<Edge>, i: nat)
    requires i < |edges|
    ensures |StoredEdges(edges)| == |edges| && StoredEdges(edges)[i] == StoredEdge(edges[i])
    decreases |edges|
  {
    hide StoredEdge;
    StoredSizes([], edges);
    if i > 0 {
      StoredEdgesAt(edges[1..], i - 1);
    }
  }

  lemma StoredInOrder(g: Graph)
    ensures InOrder(StoredGraph(g).nodes) == StoredNodes(InOrder(g.nodes))
    ensures InOrder(StoredGraph(g).edges) == StoredEdges(InOrder(g.edges))
  {
    hide StoredNode, StoredEdge, Sorted, InOrder;
    var h := StoredGraph(g);
    assert h.nodes.Keys == g.nodes.Keys && h.edges.Keys == g.edges.Keys;
    assert |h.nodes.Keys| == |h.nodes| && |g.nodes.Keys| == |g.nodes|;
    assert |h.edges.Keys| == |h.edges| && |g.edges.Keys| == |g.edges|;
    StoredSizes(InOrder(g.nodes), InOrder(g.edges));
    forall i | 0 <= i < |g.nodes| ensures InOrder(h.nodes)[i] == StoredNodes(InOrder(g.nodes))[i] {
      StoredNodesAt(InOrder(g.nodes), i);
    }
    forall i | 0 <= i < |g.edges| ensures InOrder(h.edges)[i] == StoredEdges(InOrder(g.edges))[i] {
      StoredEdgesAt(InOrder(g.edges), i);
    }
  }

  lemma StoredGraphArcs(g: Graph)
    ensures EdgeArcs(StoredGraph(g)) == EdgeArcs(g)
    ensures forall d, n :: EdgesAt(StoredGraph(g), d, n) == EdgesAt(g, d, n)
    ensures |StoredGraph(g).nodes| == |g.nodes| && |StoredGraph(g).edges| == |g.edges|
  {
    var h := StoredGraph(g);
    assert h.nodes.Keys == g.nodes.Keys && h.edges.Keys == g.edges.Keys;
    assert |h.nodes.Keys| == |h.nodes| && |g.nodes.Keys| == |g.nodes|;
    assert |h.edges.Keys| == |h.edges| && |g.edges.Keys| == |g.edges|;
    forall a | a in EdgeArcs(g) ensures a in EdgeArcs(h) {
      var e :| e in g.edges && a == (g.edges[e].from, g.edges[e].to);
      assert e in h.edges && (h.edges[e].from, h.edges[e].to) == a;
    }
  }

  lemma StoredNodeAt(env: Env, g: Graph, n: nat)
    requires n in g.nodes
    ensures
      var h := StoredGraph(g);
      && n in h.nodes && h.nodes[n].id == g.nodes[n].id && h.nodes[n].core.lineage == g.nodes[n].core.lineage
      && (ValidateNode(g.nodes[n]) == Ok ==> ValidateNode(h.nodes[n]) == Ok)
  {
    hide ValidateNode, StoredNode;
    StoredNodeKeeps(env, g.nodes[n]);
  }

  lemma StoredEdgeAt(env: Env, g: Graph, e: nat)
    requires e in g.edges
    ensures
      var h := StoredGraph(g);
      && e in h.edges && h.edges[e].id == g.edges[e].id && h.edges[e].derivation == g.edges[e].derivation
      && h.edges[e].lineage == g.edges[e].lineage && h.edges[e].from == g.edges[e].from &&
         h.edges[e].to == g.edges[e].to
      && ValidateEdge(h.edges[e]) == ValidateEdge(g.edges[e])
      && (g.edges[e] == env.FinalizeEdge(g.edges[e]) ==> h.edges[e] == env.FinalizeEdge(h.edges[e]))
  {
    hide ValidateEdge, StoredEdge, Env.FinalizeEdge;
    StoredEdgeKeeps(env, g.edges[e]);
  }

  lemma StoredGraphKeys(g: Graph)
    ensures StoredGraph(g).nodes.Keys == g.nodes.Keys && StoredGraph(g).edges.Keys == g.edges.Keys
  {
    hide StoredNode, StoredEdge;
  }

  lemma StoredGraphDag(env: Env, g: Graph)
    requires IsDag(g)
    ensures IsDag(StoredGraph(g))
  {
    hide StoredGraph, ValidateNode, ValidateEdge, Acyclic, EdgeArcs, EdgesAt, Env.FinalizeEdge;
    var h := StoredGraph(g);
    StoredGraphArcs(g);
    StoredGraphKeys(g);
    forall n | n in h.nodes ensures h.nodes[n].id == n && n != 0 {
      StoredNodeAt(env, g, n);
    }
    forall e | e in h.edges ensures h.edges[e].id == e && h.edges[e].from in h.nodes && h.edges[e].to in h.nodes {
      StoredEdgeAt(env, g, e);
    }
  }

  lemma SameDegrees(g: Graph, h: Graph, limits: Limits)
    requires WithinDegrees(g, limits) && h.nodes.Keys == g.nodes.Keys
    requires forall d, n :: EdgesAt(h, d, n) == EdgesAt(g, d, n)
    ensures WithinDegrees(h, limits)
  {
    hide EdgesAt;
    forall n | n in h.nodes
      ensures |EdgesAt(h, Incoming, n)| <= limits.maxParents && |EdgesAt(h, Outgoing, n)| <= limits.maxChildren
    {
      assert n in g.nodes.Keys;
    }
  }

  lemma StoredGraphReaddable(env: Env, g: Graph)
    requires Readdable(g, env.limits)
    ensures Readdable(StoredGraph(g), env.limits)
  {
    hide StoredGraph, ValidateNode, ValidateEdge, IsDag, EdgeArcs, EdgesAt, Env.FinalizeEdge, WithinDegrees;
    var h := StoredGraph(g);
    StoredGraphArcs(g);
    StoredGraphKeys(g);
    StoredGraphDag(env, g);
    SameDegrees(g, h, env.limits);
    forall n | n in g.nodes
      ensures n in h.nodes && h.nodes[n].core.lineage == g.nodes[n].core.lineage
      ensures ValidateNode(g.nodes[n]) == Ok ==> ValidateNode(h.nodes[n]) == Ok
    {
      StoredNodeAt(env, g, n);
    }
    forall e | e in h.edges
      ensures ValidateEdge(h.edges[e]) == Ok && h.edges[e].from == g.edges[e].from && h.edges[e].to == g.edges[e].to
      ensures h.edges[e].lineage == g.edges[e].lineage
    {
      StoredEdgeAt(env, g, e);
    }
  }

  lemma StoredEdgeAgrees(env: Env, lid: nat, lin: Lineage, e: nat)
    requires LineageSound(env, lid, lin) && e in lin.graph.edges
    ensures
      var h := StoredGraph(lin.graph);
      && e in h.edges && h.edges[e] == env.FinalizeEdge(h.edges[e]) && h.edges[e].id == e && h.edges[e].lineage == lid
      && h.edges[e].from in h.nodes && h.nodes[h.edges[e].from].core.lineage == lid
      && h.edges[e].to in h.nodes && h.nodes[h.edges[e].to].core.lineage == lid
  {
    hide LineageSound, ValidateEdge, Env.FinalizeEdge, StoredGraph, EdgeSound;
    EdgeIsSound(env, lid, lin, e);
    EdgeSoundParts(env, lid, lin.attempts.Keys, lin.graph.edges[e]);
    StoredEdgeAt(env, lin.graph, e);
    LineageOfEdge(env, lid, lin, e);
    StoredNodeAt(env, lin.graph, lin.graph.edges[e].from);
    StoredNodeAt(env, lin.graph, lin.graph.edges[e].to);
  }

  /** Adding the stored edges in order builds a derivation index that agrees with each of them. */
  lemma StoredEdgesIndexed(env: Env, lid: nat, lin: Lineage)
    requires env.CollisionFree() && LineageSound(env, lid, lin)
    ensures
      var h := StoredGraph(lin.graph);
      var m := Derivations(map[], InOrder(h.edges));
      forall e :: e in h.edges ==> h.edges[e].derivation in m && m[h.edges[e].derivation] == h.edges[e].id
  {
    hide LineageSound, Env.FinalizeEdge, Env.CollisionFree, Derivations, Sorted, InOrder, StoredGraph;
    var h := StoredGraph(lin.graph);
    var edges := InOrder(h.edges);
    StoredGraphKeys(lin.graph);
    forall i | 0 <= i < |edges| ensures edges[i] == env.FinalizeEdge(edges[i]) {
      StoredEdgeAgrees(env, lid, lin, Sorted(h.edges.Keys)[i]);
    }
    DerivationsIndex(env, map[], edges);
    forall e | e in h.edges
      ensures h.edges[e].derivation in Derivations(map[], edges)
      ensures Derivations(map[], edges)[h.edges[e].derivation] == h.edges[e].id
    {
      var i := ListedAt(h.edges, e);
    }
  }

  lemma StoredDerivations(env: Env, lid: nat, lin: Lineage)
    requires env.CollisionFree() && LineageSound(env, lid, lin)
    ensures
      var h := StoredGraph(lin.graph);
      WellFormed(h) && StructureOk(h, Derivations(map[], InOrder(h.edges)))
  {
    hide LineageSound, Env.FinalizeEdge, Env.CollisionFree, Derivations, EdgeArcs, Acyclic, Sorted, InOrder,
      StoredGraph, WellFormed;
    var h := StoredGraph(lin.graph);
    var m := Derivations(map[], InOrder(h.edges));
    SoundIsWellFormed(env, lid, lin);
    StoredGraphDag(env, lin.graph);
    StoredGraphKeys(lin.graph);
    AcyclicOf(h);
    EndsOfEdges(h);
    StoredEdgesIndexed(env, lid, lin);
    forall e | e in h.edges ensures EdgeAgrees(h, m, h.edges[e]) {
      StoredEdgeAgrees(env, lid, lin, e);
    }
  }

  lemma EndsOfEdges(g: Graph)
    requires IsDag(g)
    ensures WellFormed(g)
    ensures forall e :: e in g.edges ==> g.edges[e].from in g.nodes && g.edges[e].to in g.nodes
  {
    hide Acyclic;
  }

  lemma ExportedStructure(env: Env, lid: nat, lin: Lineage)
    requires env.CollisionFree() && LineageSound(env, lid, lin) && WithinBounds(lin, env.limits)
    ensures StructureAccepted(StoredForm(Stored(lin)), env.limits)
  {
    hide LineageSound, WithinBounds, Readdable, StructureOk, WellFormed, LoadNodes, LoadEdges, Derivations, InOrder,
      StoredNodes, StoredEdges, Env.CollisionFree, StoredAttempts;
    var h := StoredGraph(lin.graph);
    SoundIsReaddable(env, lid, lin);
    StoredGraphReaddable(env, lin.graph);
    StoredInOrder(lin.graph);
    ExportedNodesAccepted(h, env.limits);
    ExportedEdgesAccepted(h, env.limits);
    StoredDerivations(env, lid, lin);
  }

  lemma {:induction false} StoredFormOf(lineages: seq<StoredLineage>, form: StoredLineage) returns (l: StoredLineage)
    requires form in StoredForms(lineages)
    ensures l in lineages && form == StoredForm(l)
    decreases |lineages|
  {
    hide StoredForm;
    if form == StoredForm(lineages[0]) {
      l := lineages[0];
    } else {
      l := StoredFormOf(lineages[1..], form);
    }
  }

  lemma ExportedStructures(env: Env, s: Store)
    requires env.CollisionFree() && Loadable(env, s)
    ensures StructuresAccepted(StoredForms(Export(s).lineages), env.limits)
  {
    hide Loadable, StructureAccepted, Stored, StoredForm, Env.CollisionFree, StoredForms, Export;
    forall form | form in StoredForms(Export(s).lineages) ensures StructureAccepted(form, env.limits) {
      var l := StoredFormOf(Export(s).lineages, form);
      var lid := StoredOf(s, l);
      LoadableAt(env, s, lid);
      ExportedStructure(env, lid, LineageAt(s, lid));
    }
  }

  // ---------------------------------------------------------------------------------------
  // The round trip of a reachable store
  // ---------------------------------------------------------------------------------------

  /** Every value of the image fits its fixed-width field. */
  predicate Representable(image: StoreImage, limits: Limits) {
    RepHead(HeadOfImage(image)) && forall l :: l in image.lineages ==> RepLineage(l, limits)
  }

  lemma ExportedImageIsGood(env: Env, s: Store)
    requires env.CollisionFree() && Loadable(env, s) && Representable(Export(s), env.limits)
    ensures GoodImage(env, Export(s))
  {
    hide Loadable, RepLineage, RepHead, AllRebuilt, StructuresAccepted, Stored, StoredForms, Env.CollisionFree, Sorted,
      HeadOfImage, StoredAll;
    ExportIsStoredAll(s);
    SortedMembers(s.lineages.Keys);
    ExportedAllRebuilt(env, s, NOTHING_SEEN, Sorted(s.lineages.Keys));
    ExportedStructures(env, s);
  }

  lemma StoredEntry(attempts: map<AttemptKey, AttemptRecord>, k: AttemptKey)
    requires k in attempts
    ensures StoredAttempt(k.0, k.1, attempts[k]) in StoredAttempts(attempts)
  {
    hide StoredAttempts;
    var keys := SortedPairs(attempts.Keys);
    assert k in keys;
    var i :| 0 <= i < |keys| && keys[i] == k;
    assert StoredAttempts(attempts)[i] in StoredAttempts(attempts);
  }

  lemma LedgerReadable(attempts: map<AttemptKey, AttemptRecord>, limits: Limits)
    requires LedgerFits(attempts, limits)
    ensures AllReadable(StoredAttempts(attempts), limits) <==> !(limits.maxEdges == 1 && HasLink(attempts))
  {
    hide StoredAttempts;
    var stored := StoredAttempts(attempts);
    if limits.maxEdges == 1 && HasLink(attempts) {
      var k :| k in attempts && |attempts[k].edges| == 2;
      StoredEntry(attempts, k);
    } else {
      forall a | a in stored ensures EntryReadable(a, limits) {
        var i :| 0 <= i < |stored| && stored[i] == a;
        var k := SortedPairs(attempts.Keys)[i];
        assert k in attempts && EntryFits(attempts[k], limits);
      }
    }
  }

  lemma WithinFits(lin: Lineage, limits: Limits)
    requires WithinBounds(lin, limits)
    ensures LedgerFits(lin.attempts, limits)
  {
    hide Sized, LedgerFits;
  }

  lemma ExportedListed(s: Store, lid: nat)
    requires lid in s.lineages
    ensures Stored(LineageAt(s, lid)) in Export(s).lineages
  {
    hide Stored, InOrder, Sorted;
    var i := ListedAt(s.lineages, lid);
    assert Export(s).lineages[i] == Stored(LineageAt(s, lid));
  }

  /** Which exported ledgers the reader refuses. */
  lemma ExportReadable(env: Env, s: Store)
    requires AllWithin(env, s)
    ensures LedgersReadable(Export(s).lineages, env.limits) <==> !ListsALink(s, env.limits)
  {
    hide WithinBounds, LedgerFits, HasLink, StoredAttempts, AllReadable, Export, InOrder;
    forall lid | lid in s.lineages
      ensures AllReadable(Stored(LineageAt(s, lid)).attempts, env.limits) <==>
              !(env.limits.maxEdges == 1 && HasLink(LineageAt(s, lid).attempts))
      ensures Stored(LineageAt(s, lid)) in Export(s).lineages
    {
      WithinFits(LineageAt(s, lid), env.limits);
      LedgerReadable(LineageAt(s, lid).attempts, env.limits);
      ExportedListed(s, lid);
    }
    forall l | l in Export(s).lineages ensures exists lid :: lid in s.lineages && l == Stored(LineageAt(s, lid)) {
      var lid := StoredOf(s, l);
    }
  }

  /** When every value fits its field, the image written of the store passes every check and is
      read back, up to the derived counters, the last mutation digest, and identities that were
      present but zero, unless the edge bound is one and the ledger lists a link; then it is refused. */
  ghost predicate ReadsBack(env: Env, hash: seq<Byte> -> nat, s: Store) {
    Representable(Export(s), env.limits) ==>
      && GoodImage(env, Export(s))
      && match EncodeImage(hash, Export(s), env.limits)
         case Failure(_) => true
         case Success(bytes) =>
           DecodeImage(env, hash, bytes) ==
             if ListsALink(s, env.limits) then Failure(StoreCorrupt)
             else Success(StoreImage(s.marks, StoredForms(Export(s).lineages)))
  }

  /** Round trip of a sound store within its bounds. */
  lemma SavedStoreReadsBack(env: Env, hash: seq<Byte> -> nat, s: Store)
    requires env.CollisionFree() && IsHash(hash) && Loadable(env, s)
    ensures ReadsBack(env, hash, s)
  {
    hide Sound, AllWithin, Representable, EncodeImage, DecodeImage, GoodImage, Env.CollisionFree, StoredForms, IsHash,
      Stored, InOrder, LedgersReadable, ListsALink;
    if Representable(Export(s), env.limits) {
      ExportedImageIsGood(env, s);
      ExportReadable(env, s);
      if EncodeImage(hash, Export(s), env.limits).Success? {
        ImageRoundTrip(env, hash, Export(s), EncodeImage(hash, Export(s), env.limits).value);
      }
    }
  }

  /** Round trip of every store that a run from the empty one reaches. */
  lemma ReachedStoreReadsBack(env: Env, hash: seq<Byte> -> nat, ops: seq<Op>)
    requires env.CollisionFree() && IsHash(hash) && Obeys(env, EMPTY_STORE, ops, {Rule.Fits})
    ensures ReadsBack(env, hash, Run(env, EMPTY_STORE, ops))
  {
    hide Run, Obeys, Sound, AllWithin, Env.CollisionFree, IsHash, AllDags, ReadsBack;
    ReachedSound(env, ops);
    ReachedWithin(env, ops);
    SavedStoreReadsBack(env, hash, Run(env, EMPTY_STORE, ops));
  }
}
