// Saving and loading a reachable store: load accepts what export wrote, keeps every record,
// edge and ledger entry, and recovers conservatively.
module Recovery {
  import opened Types
  import opened Ordering
  import opened Digraph
  import opened GraphModel
  import opened StoreTypes
  import opened CurrentnessModel
  import opened CommitPipeline
  import opened Soundness
  import opened Admission
  import opened Insertions
  import opened LineageSteps
  import opened CommitSteps
  import opened CommitCache
  import opened CommitInvariants
  import opened RegistrySteps
  import opened Growth
  import opened Progress
  import opened Operations
  import opened Runs
  import opened Images
  import opened Structure

  // ---------------------------------------------------------------------------------------
  // Re-adding edges in any order
  // ---------------------------------------------------------------------------------------

  /** A graph every part of which the graph's own checks accept. */
  ghost predicate Readdable(t: Graph, limits: Limits) {
    && IsDag(t) && WithinDegrees(t, limits)
    && |t.nodes| <= limits.maxNodes && |t.edges| <= limits.maxEdges
    && (forall n :: n in t.nodes ==> ValidateNode(t.nodes[n]) == Ok)
    && (forall e :: e in t.edges ==>
          ValidateEdge(t.edges[e]) == Ok && t.edges[e].from in t.nodes && t.edges[e].to in t.nodes &&
          t.nodes[t.edges[e].from].core.lineage == t.edges[e].lineage)
  }

  ghost predicate PartOf(p: Graph, t: Graph) {
    p.nodes == t.nodes && forall e :: e in p.edges ==> e in t.edges && p.edges[e] == t.edges[e]
  }

  predicate DistinctEdges(edges: seq<Edge>) {
    forall i, j :: 0 <= i < j < |edges| ==> edges[i].id != edges[j].id
  }

  ghost predicate MissingFrom(p: Graph, t: Graph, edges: seq<Edge>) {
    forall i :: 0 <= i < |edges| ==>
      edges[i].id in t.edges && t.edges[edges[i].id] == edges[i] && edges[i].id !in p.edges
  }

  lemma PartHasRoom(p: Graph, t: Graph, e: nat, d: Direction)
    requires PartOf(p, t) && e in t.edges && e !in p.edges
    ensures |p.edges| < |t.edges|
    ensures |EdgesAt(p, d, Tail(t.edges[e], d))| < |EdgesAt(t, d, Tail(t.edges[e], d))|
  {
    assert p.edges.Keys <= t.edges.Keys;
    StrictSubset(p.edges.Keys, t.edges.Keys, e);
    StrictSubset(EdgesAt(p, d, Tail(t.edges[e], d)), EdgesAt(t, d, Tail(t.edges[e], d)), e);
    assert |p.edges.Keys| == |p.edges| && |t.edges.Keys| == |t.edges|;
  }

  lemma StrictSubset(s: set<nat>, t: set<nat>, x: nat)
    requires s <= t && x in t && x !in s
    ensures |s| < |t|
  {
    SmallerSet(s, t, x);
  }

  lemma PartArcs(p: Graph, t: Graph)
    requires PartOf(p, t)
    ensures EdgeArcs(p) <= EdgeArcs(t)
  {
    forall a | a in EdgeArcs(p) ensures a in EdgeArcs(t) {
      var e :| e in p.edges && a == (p.edges[e].from, p.edges[e].to);
      assert t.edges[e] == p.edges[e];
    }
  }

  lemma MissingEdgeAccepted(p: Graph, t: Graph, e: nat, limits: Limits)
    requires Readdable(t, limits) && PartOf(p, t) && e in t.edges && e !in p.edges
    ensures AddEdgeOutcome(p, t.edges[e], limits) == Ok
  {
    hide EdgesAt, WellFormed;
    var edge := t.edges[e];
    EdgeIdsMatch(t, e);
    PartHasRoom(p, t, e, Incoming);
    PartHasRoom(p, t, e, Outgoing);
    PartArcs(p, t);
    MissingEdgeAcyclic(p, t, e);
  }

  lemma EdgeIdsMatch(t: Graph, e: nat)
    requires IsDag(t) && e in t.edges
    ensures t.edges[e].id == e
  {
    hide Acyclic;
  }

  lemma MissingEdgeAcyclic(p: Graph, t: Graph, e: nat)
    requires Acyclic(EdgeArcs(t)) && EdgeArcs(p) <= EdgeArcs(t) && e in t.edges
    ensures !Reaches(EdgeArcs(p), t.edges[e].to, t.edges[e].from)
  {
    var edge := t.edges[e];
    assert (edge.from, edge.to) in EdgeArcs(t);
    if Reaches(EdgeArcs(p), edge.to, edge.from) {
      ReachesMonotone(EdgeArcs(p), EdgeArcs(t), edge.to, edge.from);
    }
  }

  /** Edges of an acyclic graph within the degree bounds are accepted in any order. */
  lemma {:induction false} AnyOrderAccepted(p: Graph, t: Graph, edges: seq<Edge>, limits: Limits)
    requires Readdable(t, limits) && PartOf(p, t) && DistinctEdges(edges) && MissingFrom(p, t, edges)
    requires forall e :: e in t.edges ==> e in p.edges || exists i :: 0 <= i < |edges| && edges[i].id == e
    ensures LoadEdges(p, edges, limits) == Success(t)
    decreases |edges|
  {
    hide Readdable, AddEdgeOutcome;
    if edges == [] {
      assert p.edges == t.edges;
    } else {
      MissingEdgeAccepted(p, t, edges[0].id, limits);
      OneFewerMissing(p, t, edges);
      AnyOrderAccepted(WithEdge(p, edges[0]), t, edges[1..], limits);
    }
  }

  lemma OneFewerMissing(p: Graph, t: Graph, edges: seq<Edge>)
    requires edges != [] && PartOf(p, t) && DistinctEdges(edges) && MissingFrom(p, t, edges)
    requires forall e :: e in t.edges ==> e in p.edges || exists i :: 0 <= i < |edges| && edges[i].id == e
    ensures
      var q := WithEdge(p, edges[0]);
      && PartOf(q, t) && DistinctEdges(edges[1..]) && MissingFrom(q, t, edges[1..])
      && forall e :: e in t.edges ==> e in q.edges || exists i :: 0 <= i < |edges[1..]| && edges[1..][i].id == e
  {
    var q := WithEdge(p, edges[0]);
    forall e | e in t.edges ensures e in q.edges || exists i :: 0 <= i < |edges[1..]| && edges[1..][i].id == e {
      if e !in p.edges && e != edges[0].id {
        var i :| 0 <= i < |edges| && edges[i].id == e;
        assert edges[1..][i - 1].id == e;
      }
    }
    assert edges[0] !in edges[1..];
  }

  /** The graph has no edge and only records of the other, and the list is of the others, each once. */
  ghost predicate Awaits(g: Graph, t: Graph, nodes: seq<Node>) {
    && g.edges == map[] && (forall n :: n in g.nodes ==> n in t.nodes && g.nodes[n] == t.nodes[n])
    && (forall i :: 0 <= i < |nodes| ==>
          nodes[i].id in t.nodes && t.nodes[nodes[i].id] == nodes[i] && nodes[i].id !in g.nodes)
    && (forall i, j :: 0 <= i < j < |nodes| ==> nodes[i].id != nodes[j].id)
    && (forall n :: n in t.nodes ==> n in g.nodes || exists i :: 0 <= i < |nodes| && nodes[i].id == n)
  }

  /** Records that validate, as many as fit. */
  predicate FitsRecords(t: Graph, limits: Limits) {
    && |t.nodes| <= limits.maxNodes
    && forall n :: n in t.nodes ==> n != 0 && t.nodes[n].id == n && ValidateNode(t.nodes[n]) == Ok
  }

  lemma OneFewerNode(g: Graph, t: Graph, nodes: seq<Node>)
    requires nodes != [] && Awaits(g, t, nodes)
    ensures Awaits(g.(nodes := g.nodes[nodes[0].id := nodes[0]]), t, nodes[1..])
  {
    forall n | n in t.nodes && n !in g.nodes && n != nodes[0].id
      ensures exists i :: 0 <= i < |nodes[1..]| && nodes[1..][i].id == n
    {
      var i :| 0 <= i < |nodes| && nodes[i].id == n;
      assert nodes[1..][i - 1].id == n;
    }
  }

  lemma NextNodeFits(g: Graph, t: Graph, nodes: seq<Node>, limits: Limits)
    requires nodes != [] && Awaits(g, t, nodes) && FitsRecords(t, limits)
    ensures AddNodeOutcome(g, nodes[0], limits) == Ok
  {
    hide ValidateNode;
    StrictSubset(g.nodes.Keys, t.nodes.Keys, nodes[0].id);
    assert |g.nodes.Keys| == |g.nodes| && |t.nodes.Keys| == |t.nodes|;
  }

  lemma {:induction false} NodesAccepted(g: Graph, t: Graph, nodes: seq<Node>, limits: Limits)
    requires Awaits(g, t, nodes) && FitsRecords(t, limits)
    ensures LoadNodes(g, nodes, limits) == Success(Graph(t.nodes, map[]))
    decreases |nodes|
  {
    hide AddNodeOutcome, FitsRecords;
    if nodes == [] {
      assert g.nodes == t.nodes;
    } else {
      hide Awaits;
      NextNodeFits(g, t, nodes, limits);
      OneFewerNode(g, t, nodes);
      NodesAccepted(AddNode(g, nodes[0], limits), t, nodes[1..], limits);
    }
  }

  /** Where the value of a key stands in the list of values. */
  lemma ListedAt<T>(m: map<nat, T>, k: nat) returns (i: nat)
    requires k in m
    ensures i < |InOrder(m)| && Sorted(m.Keys)[i] == k && InOrder(m)[i] == m[k]
  {
    hide InOrder;
    SortedKeys(m);
    i := PositionOf(m.Keys, Sorted(m.Keys), k);
  }

  lemma ReaddableIds(t: Graph, limits: Limits)
    requires Readdable(t, limits)
    ensures forall e :: e in t.edges ==> t.edges[e].id == e
  {
    hide WithinDegrees, Acyclic, ValidateNode, ValidateEdge;
  }

  lemma ExportedNodesAccepted(t: Graph, limits: Limits)
    requires Readdable(t, limits)
    ensures LoadNodes(EMPTY_GRAPH, InOrder(t.nodes), limits) == Success(Graph(t.nodes, map[]))
  {
    hide Readdable, Awaits, FitsRecords, InOrder, LoadNodes;
    ReaddableFits(t, limits);
    AwaitsAll(t, limits);
    NodesAccepted(EMPTY_GRAPH, t, InOrder(t.nodes), limits);
  }

  lemma ReaddableFits(t: Graph, limits: Limits)
    requires Readdable(t, limits)
    ensures FitsRecords(t, limits)
  {
    hide WithinDegrees, Acyclic, ValidateNode, ValidateEdge;
  }

  lemma AwaitsAll(t: Graph, limits: Limits)
    requires FitsRecords(t, limits)
    ensures Awaits(EMPTY_GRAPH, t, InOrder(t.nodes))
  {
    hide InOrder, Sorted, ValidateNode;
    var nodes := InOrder(t.nodes);
    forall n | n in t.nodes ensures exists i :: 0 <= i < |nodes| && nodes[i].id == n {
      var i := ListedAt(t.nodes, n);
    }
  }

  lemma ExportedEdgesAccepted(t: Graph, limits: Limits)
    requires Readdable(t, limits)
    ensures LoadEdges(Graph(t.nodes, map[]), InOrder(t.edges), limits) == Success(t)
  {
    hide InOrder, Readdable, Sorted, LoadEdges;
    ReaddableIds(t, limits);
    var edges := InOrder(t.edges);
    forall e | e in t.edges ensures exists i :: 0 <= i < |edges| && edges[i].id == e {
      var i := ListedAt(t.edges, e);
    }
    AnyOrderAccepted(Graph(t.nodes, map[]), t, edges, limits);
  }

  // ---------------------------------------------------------------------------------------
  // One lineage
  // ---------------------------------------------------------------------------------------

  lemma SoundIsReaddable(env: Env, lid: nat, lin: Lineage)
    requires LineageSound(env, lid, lin) && WithinBounds(lin, env.limits)
    ensures Readdable(lin.graph, env.limits)
  {
    hide LineageSound, NodeSound, EdgeSound, WithinDegrees, ValidateNode, ValidateEdge, IsDag;
    SoundIsWellFormed(env, lid, lin);
    forall n | n in lin.graph.nodes ensures ValidateNode(lin.graph.nodes[n]) == Ok {
      TargetSound(env, lid, lin, n);
    }
    forall e | e in lin.graph.edges
      ensures ValidateEdge(lin.graph.edges[e]) == Ok
      ensures lin.graph.edges[e].from in lin.graph.nodes && lin.graph.edges[e].to in lin.graph.nodes
      ensures lin.graph.nodes[lin.graph.edges[e].from].core.lineage == lin.graph.edges[e].lineage
    {
      LineageOfEdge(env, lid, lin, e);
    }
  }

  lemma LineageOfEdge(env: Env, lid: nat, lin: Lineage, e: nat)
    requires LineageSound(env, lid, lin) && e in lin.graph.edges
    ensures
      var edge := lin.graph.edges[e];
      && ValidateEdge(edge) == Ok && edge.from in lin.graph.nodes && edge.to in lin.graph.nodes
      && edge.lineage == lid && lin.graph.nodes[edge.from].core.lineage == lid
      && lin.graph.nodes[edge.to].core.lineage == lid && edge.id == e
  {
    hide LineageSound, EdgeSound, ValidateEdge, Env.FinalizeEdge;
    EdgeIsSound(env, lid, lin, e);
    EdgeSoundParts(env, lid, lin.attempts.Keys, lin.graph.edges[e]);
    SoundIsWellFormed(env, lid, lin);
    EndsPresent(lin.graph, e);
    TargetSound(env, lid, lin, lin.graph.edges[e].from);
    TargetSound(env, lid, lin, lin.graph.edges[e].to);
  }

  lemma EdgeSoundParts(env: Env, lid: nat, attempts: set<AttemptKey>, e: Edge)
    requires EdgeSound(env, lid, attempts, e)
    ensures ValidateEdge(e) == Ok && e.lineage == lid && e == env.FinalizeEdge(e)
  {
    hide ValidateEdge, Env.FinalizeEdge;
  }

  lemma EndsPresent(g: Graph, e: nat)
    requires WellFormed(g) && e in g.edges
    ensures g.edges[e].from in g.nodes && g.edges[e].to in g.nodes
  {
  }

  lemma {:induction false} DerivationsIndex(env: Env, m: map<nat, nat>, edges: seq<Edge>)
    requires env.CollisionFree()
    requires forall i :: 0 <= i < |edges| ==> edges[i] == env.FinalizeEdge(edges[i])
    requires forall i :: 0 <= i < |edges| && edges[i].derivation in m ==> m[edges[i].derivation] == edges[i].id
    ensures
      var d := Derivations(m, edges);
      && (forall k :: k in m ==> k in d && d[k] == m[k])
      && (forall i :: 0 <= i < |edges| ==> edges[i].derivation in d && d[edges[i].derivation] == edges[i].id)
    decreases |edges|
  {
    hide Env.CollisionFree, Env.FinalizeEdge;
    if edges != [] {
      var e := edges[0];
      var m' := if e.derivation in m then m else m[e.derivation := e.id];
      forall i | 0 <= i < |edges[1..]| && edges[1..][i].derivation in m'
        ensures m'[edges[1..][i].derivation] == edges[1..][i].id
      {
        assert edges[1..][i] == edges[i + 1];
        if edges[i + 1].derivation == e.derivation {
          SameDerivationSameEdge(env, edges[i + 1], e);
        }
      }
      DerivationsIndex(env, m', edges[1..]);
      forall i | 0 <= i < |edges|
        ensures edges[i].derivation in Derivations(m, edges) &&
                Derivations(m, edges)[edges[i].derivation] == edges[i].id
      {
        if i > 0 {
          assert edges[i] == edges[1..][i - 1];
        }
      }
    }
  }

  lemma AcyclicOf(g: Graph)
    requires IsDag(g)
    ensures Acyclic(EdgeArcs(g))
  {
    hide Acyclic, WellFormed;
  }

  lemma SoundStructure(env: Env, lid: nat, lin: Lineage)
    requires env.CollisionFree() && LineageSound(env, lid, lin)
    ensures WellFormed(lin.graph) && StructureOk(lin.graph, Derivations(map[], InOrder(lin.graph.edges)))
  {
    hide LineageSound, ValidateEdge, Env.FinalizeEdge, Env.CollisionFree, Derivations, EdgeArcs, Acyclic, Sorted,
      InOrder, WellFormed;
    var g, edges := lin.graph, InOrder(lin.graph.edges);
    SoundIsWellFormed(env, lid, lin);
    forall i | 0 <= i < |edges| ensures edges[i] == env.FinalizeEdge(edges[i]) {
      EdgeIsSound(env, lid, lin, Sorted(g.edges.Keys)[i]);
    }
    DerivationsIndex(env, map[], edges);
    AcyclicOf(g);
    forall e | e in g.edges ensures EdgeAgrees(g, Derivations(map[], edges), g.edges[e]) {
      LineageOfEdge(env, lid, lin, e);
      var i := ListedAt(g.edges, e);
    }
  }

  lemma {:induction false} AttemptsReadBack(m: map<AttemptKey, AttemptRecord>, t: map<AttemptKey, AttemptRecord>,
                                            attempts: seq<StoredAttempt>)
    requires forall k :: k in m ==> k in t && m[k] == t[k]
    requires forall i :: 0 <= i < |attempts| ==>
               var k := (attempts[i].publisher, attempts[i].attempt); k in t && t[k] == attempts[i].record
    requires forall k :: k in t ==>
               k in m || exists i :: 0 <= i < |attempts| && k == (attempts[i].publisher, attempts[i].attempt)
    ensures LoadAttempts(m, attempts) == t
    decreases |attempts|
  {
    if attempts == [] {
      assert m == t;
    } else {
      var k0 := (attempts[0].publisher, attempts[0].attempt);
      var m' := if k0 in m then m else m[k0 := attempts[0].record];
      forall k | k in t
        ensures k in m' ||
                exists i :: 0 <= i < |attempts[1..]| && k == (attempts[1..][i].publisher, attempts[1..][i].attempt)
      {
        if k !in m' {
          var i :| 0 <= i < |attempts| && k == (attempts[i].publisher, attempts[i].attempt);
          assert attempts[1..][i - 1] == attempts[i];
        }
      }
      AttemptsReadBack(m', t, attempts[1..]);
    }
  }

  lemma StoredAttemptsReadBack(t: map<AttemptKey, AttemptRecord>)
    ensures LoadAttempts(map[], StoredAttempts(t)) == t
  {
    hide LoadAttempts;
    var keys, attempts := SortedPairs(t.Keys), StoredAttempts(t);
    forall k | k in t ensures exists i :: 0 <= i < |attempts| && k == (attempts[i].publisher, attempts[i].attempt) {
      assert k in keys;
      var i :| 0 <= i < |keys| && keys[i] == k;
      assert attempts[i] == StoredAttempt(k.0, k.1, t[k]);
    }
    AttemptsReadBack(map[], t, attempts);
  }

  /** The lineage that loading its own export gives: demoted, recounted, otherwise the same. */
  ghost function Reloaded(lin: Lineage): Lineage {
    var g := Demote(lin.graph);
    Lineage(lin.state.(nodeCount := |g.nodes|, edgeCount := |g.edges|, historyCount := |HistoryRecords(g)|,
                       compactedCount := |CompactedRecords(g)|),
            g, lin.attempts)
  }

  lemma StoredLineageLoads(env: Env, lid: nat, lin: Lineage)
    requires env.CollisionFree() && LineageSound(env, lid, lin) && WithinBounds(lin, env.limits)
    ensures LoadLineage(Stored(lin), env.limits) == Success(Reloaded(lin))
  {
    hide LineageSound, WithinBounds, StructureOk, WellFormed, LoadNodes, LoadEdges, LoadAttempts, Derivations, InOrder,
      StoredAttempts, HistoryRecords, CompactedRecords, Readdable, Env.CollisionFree, GraphSound, LedgerSound,
      CountsExact;
    SoundIsReaddable(env, lid, lin);
    ExportedNodesAccepted(lin.graph, env.limits);
    ExportedEdgesAccepted(lin.graph, env.limits);
    SoundStructure(env, lid, lin);
    StoredAttemptsReadBack(lin.attempts);
    SoundParts(env, lid, lin);
  }

  // ---------------------------------------------------------------------------------------
  // The store
  // ---------------------------------------------------------------------------------------

  ghost predicate Loadable(env: Env, s: Store) {
    Sound(env, s) && AllWithin(env, s)
  }

  /** The lineages loaded so far: those of the first identities, reloaded. */
  ghost predicate LoadedPrefix(s: Store, done: Loaded, ids: seq<nat>) {
    && (forall lid :: lid in done.lineages <==> lid in ids)
    && (forall lid :: lid in done.lineages ==> lid in s.lineages && done.lineages[lid] == Reloaded(s.lineages[lid]))
    && (forall route :: route in done.routes ==>
          exists lid :: lid in ids && lid in s.lineages && s.lineages[lid].state.key.route == route)
  }

  ghost predicate PrefixLoaded(s: Store, r: Result<Loaded>, ids: seq<nat>) {
    match r
    case Success(done) => LoadedPrefix(s, done, ids)
    case Failure(_) => false
  }

  function StoredAll(s: Store, ids: seq<nat>): seq<StoredLineage> {
    seq(|ids|, i requires 0 <= i < |ids| => Stored(LineageAt(s, ids[i])))
  }

  lemma LoadableAt(env: Env, s: Store, lid: nat)
    requires Loadable(env, s) && lid in s.lineages
    ensures LineageSound(env, lid, LineageAt(s, lid)) && WithinBounds(LineageAt(s, lid), env.limits)
  {
    hide LineageSound, WithinBounds;
  }

  lemma LoadOne(env: Env, s: Store, lid: nat)
    requires env.CollisionFree() && Loadable(env, s) && lid in s.lineages
    ensures LoadLineage(Stored(LineageAt(s, lid)), env.limits) == Success(Reloaded(LineageAt(s, lid)))
    ensures LineageAt(s, lid).state.id == lid
  {
    hide LineageSound, WithinBounds, Loadable, LoadLineage, Reloaded, Stored, Env.CollisionFree, LineageAt;
    LoadableAt(env, s, lid);
    StoredLineageLoads(env, lid, LineageAt(s, lid));
    SoundParts(env, lid, LineageAt(s, lid));
  }

  predicate AscendingIn(s: Store, ids: seq<nat>) {
    && (forall i :: 0 <= i < |ids| ==> ids[i] in s.lineages)
    && (forall i, j :: 0 <= i < j < |ids| ==> ids[i] < ids[j])
  }

  ghost function LoadedNext(s: Store, done: Loaded, lid: nat): Loaded
    requires lid in s.lineages
  {
    Loaded(done.lineages[lid := Reloaded(s.lineages[lid])],
           done.routes[s.lineages[lid].state.key.route := lid])
  }

  lemma NextIsNew(s: Store, done: Loaded, ids: seq<nat>, k: nat)
    requires AscendingIn(s, ids) && k < |ids| && LoadedPrefix(s, done, ids[..k]) && RoutesDistinct(s)
    ensures ids[k] !in done.lineages && s.lineages[ids[k]].state.key.route !in done.routes
  {
    hide Reloaded;
    assert ids[k] !in ids[..k];
  }

  lemma NextPrefix(s: Store, done: Loaded, ids: seq<nat>, k: nat)
    requires AscendingIn(s, ids) && k < |ids| && LoadedPrefix(s, done, ids[..k])
    ensures LoadedPrefix(s, LoadedNext(s, done, ids[k]), ids[..k + 1])
  {
    hide Reloaded;
    assert ids[..k + 1] == ids[..k] + [ids[k]];
    assert ids[k] in ids[..k + 1];
  }

  lemma {:induction false} LineagesLoad(env: Env, s: Store, done: Loaded, ids: seq<nat>, k: nat)
    requires env.CollisionFree() && Loadable(env, s) && RoutesDistinct(s) && k <= |ids| && AscendingIn(s, ids)
    requires LoadedPrefix(s, done, ids[..k])
    ensures PrefixLoaded(s, LoadLineages(done, StoredAll(s, ids)[k..], env.limits), ids)
    decreases |ids| - k
  {
    hide Loadable, LoadLineage, Reloaded, Stored, Env.CollisionFree, LoadedPrefix, RoutesDistinct;
    if k == |ids| {
      assert ids[..k] == ids;
    } else {
      var rest := StoredAll(s, ids)[k..];
      assert rest[0] == Stored(LineageAt(s, ids[k])) && rest[1..] == StoredAll(s, ids)[k + 1..];
      LoadOne(env, s, ids[k]);
      StoredStateIds(s.lineages[ids[k]]);
      NextIsNew(s, done, ids, k);
      NextPrefix(s, done, ids, k);
      LineagesLoad(env, s, LoadedNext(s, done, ids[k]), ids, k + 1);
    }
  }

  lemma StoredStateIds(lin: Lineage)
    ensures Stored(lin).state == lin.state
  {
  }

  lemma ExportIsStoredAll(s: Store)
    ensures forall i :: 0 <= i < |Sorted(s.lineages.Keys)| ==> Sorted(s.lineages.Keys)[i] in s.lineages
    ensures Export(s).lineages == StoredAll(s, Sorted(s.lineages.Keys))
  {
    hide Stored;
    assert |s.lineages.Keys| == |s.lineages|;
  }

  // ---------------------------------------------------------------------------------------
  // Conservative recovery
  // ---------------------------------------------------------------------------------------

  /** A record after a load: the same content, demoted if a session vouched for it, and
      re-evaluated without any live publisher. */
  ghost predicate Recovered(st: LineageState, marks: Watermarks, n: Node, n': Node) {
    && n' == Demoted(n).(currentness := n'.currentness)
    && n'.currentness == Recomputed(st, Demoted(n), marks, map[])
  }

  lemma RecoveredRecord(lin: Lineage, marks: Watermarks, id: nat)
    requires id in lin.graph.nodes
    ensures
      var lin' := ReevaluateAll(Reloaded(lin), marks);
      && id in lin'.graph.nodes
      && Recovered(lin.state, marks, lin.graph.nodes[id], lin'.graph.nodes[id])
  {
    hide Compute, LivenessOf, CompactedRecords, HistoryRecords;
    CountersIrrelevant(lin.state, Reloaded(lin).state, Demoted(lin.graph.nodes[id]), marks);
  }

  lemma CountersIrrelevant(st: LineageState, st': LineageState, n: Node, marks: Watermarks)
    requires st'.lifecycle == st.lifecycle && st'.generation == st.generation
    ensures Recomputed(st', n, marks, map[]) == Recomputed(st, n, marks, map[])
  {
  }

  /** When the stored currentness was exact, no record is CURRENT after a load: with no live
      publisher only an explicit revalidation could make one so, and those were demoted. */
  lemma NothingIsCurrent(env: Env, lid: nat, lin: Lineage, marks: Watermarks, publishers: Registry, id: nat, n': Node)
    requires LineageSound(env, lid, lin) && id in lin.graph.nodes
    requires lin.state.lifecycle != RetiredLineage ==> Agrees(lin.state, lin.graph.nodes[id], marks, publishers)
    requires Recovered(lin.state, marks, lin.graph.nodes[id], n')
    ensures n'.currentness != IsCurrent
  {
    hide LineageSound, HasOrigin, ValidateNode, EvidenceGet;
    NodeIsSound(env, lid, lin, id);
  }

  /** The store that loading the export of s gives. */
  ghost predicate RecoversTo(s: Store, t: Store) {
    && t.lineages.Keys == s.lineages.Keys
    && (forall lid :: lid in s.lineages ==>
          LineageAt(t, lid) == ReevaluateAll(Reloaded(LineageAt(s, lid)), s.marks))
    && t.marks == s.marks && t.publishers == map[] && t.recovered
  }

  ghost predicate LoadsAs(s: Store, r: Result<Store>) {
    match r
    case Success(t) => RecoversTo(s, t)
    case Failure(_) => false
  }

  lemma ExportedLineagesLoad(env: Env, s: Store)
    requires env.CollisionFree() && Loadable(env, s) && RoutesDistinct(s)
    ensures PrefixLoaded(s, LoadLineages(Loaded(map[], map[]), Export(s).lineages, env.limits), Sorted(s.lineages.Keys))
  {
    hide Loadable, Env.CollisionFree, StoredAll, Sorted, LoadLineages, Reloaded;
    var ids := Sorted(s.lineages.Keys);
    ExportIsStoredAll(s);
    assert ids[..0] == [];
    StoredAllSize(s, ids);
    LineagesLoad(env, s, Loaded(map[], map[]), ids, 0);
  }

  lemma StoredAllSize(s: Store, ids: seq<nat>)
    requires forall i :: 0 <= i < |ids| ==> ids[i] in s.lineages
    ensures StoredAll(s, ids)[0..] == StoredAll(s, ids)
  {
  }

  /** The store that a load makes of the lineages it has rebuilt. */
  ghost predicate Installs(done: Loaded, marks: Watermarks, r: Result<Store>) {
    match r
    case Failure(_) => false
    case Success(t) =>
      && t.lineages.Keys == done.lineages.Keys && t.marks == marks && t.publishers == map[] && t.recovered
      && forall lid :: lid in done.lineages ==> LineageAt(t, lid) == ReevaluateAll(done.lineages[lid], marks)
  }

  lemma LoadInstalls(present: Store, image: StoreImage, limits: Limits, done: Loaded)
    requires LoadLineages(Loaded(map[], map[]), image.lineages, limits) == Success(done)
    ensures Installs(done, image.marks, Load(present, image, limits))
  {
    hide LoadLineages, ReevaluateAll, IndexLineages, Sorted;
  }

  lemma PrefixRecovers(s: Store, done: Loaded, r: Result<Store>)
    requires LoadedPrefix(s, done, Sorted(s.lineages.Keys)) && Installs(done, s.marks, r)
    ensures LoadsAs(s, r)
  {
    hide ReevaluateAll, Reloaded, Sorted;
    SortedMembers(s.lineages.Keys);
    assert done.lineages.Keys == s.lineages.Keys;
  }

  /** Load accepts every exported reachable store. */
  lemma ExportLoads(env: Env, s: Store, present: Store)
    requires env.CollisionFree() && Loadable(env, s) && RoutesDistinct(s)
    ensures LoadsAs(s, Load(present, Export(s), env.limits))
  {
    hide Loadable, LoadedPrefix, LoadsAs, Installs, Env.CollisionFree, Sorted, LoadLineages, Load, Stored;
    ExportedLineagesLoad(env, s);
    var done := LoadLineages(Loaded(map[], map[]), Export(s).lineages, env.limits).value;
    LoadInstalls(present, Export(s), env.limits, done);
    PrefixRecovers(s, done, Load(present, Export(s), env.limits));
  }

  /** The lineage after loading, at one record. */
  ghost predicate RecoveredConservatively(lin: Lineage, lin': Lineage, id: nat, t: Store) {
    && id in lin.graph.nodes && lin'.graph.edges == lin.graph.edges && lin'.attempts == lin.attempts &&
       id in lin'.graph.nodes
    && var n, n' := lin.graph.nodes[id], lin'.graph.nodes[id];
       && n'.id == n.id && n'.core == n.core && n'.correctedBy == n.correctedBy && n'.revalidated == n.revalidated
       && n'.lifecycle == (if VouchedFor(n) then RevalidationRequired else n.lifecycle)
       && n'.currentness != IsCurrent
       && n'.currentness == Recomputed(lin'.state, n', t.marks, t.publishers)
  }

  ghost predicate RecoveredWhole(s: Store, r: Result<Store>) {
    match r
    case Failure(_) => false
    case Success(t) =>
      forall lid, id :: lid in s.lineages && id in s.lineages[lid].graph.nodes ==>
        RecoveredConservatively(s.lineages[lid], LineageAt(t, lid), id, t)
  }

  /** Conservative recovery. Loading the export of a reachable store succeeds; it keeps every
      record's identity and core, every edge and every ledger entry, makes the stored currentness
      of every record exact again, and leaves none CURRENT. */
  lemma ConservativeRecovery(env: Env, s: Store, present: Store)
    requires env.CollisionFree() && Invariant(env, s) && AllWithin(env, s)
    ensures RecoveredWhole(s, Load(present, Export(s), env.limits))
  {
    hide Sound, Placed, AllTracked, CacheAgrees, AllWithin, Load, Export, Env.CollisionFree, RecoveredConservatively,
      ReevaluateAll, Reloaded;
    PlacedRoutes(s);
    ExportLoads(env, s, present);
    var t := Load(present, Export(s), env.limits).value;
    forall lid, id | lid in s.lineages && id in s.lineages[lid].graph.nodes
      ensures RecoveredConservatively(s.lineages[lid], LineageAt(t, lid), id, t)
    {
      RecordRecovers(env, s, t, lid, id);
    }
  }

  lemma PlacedRoutes(s: Store)
    requires Placed(s)
    ensures RoutesDistinct(s)
  {
    hide RoutesDistinct, LineagePlaced;
  }

  lemma RecordRecovers(env: Env, s: Store, t: Store, lid: nat, id: nat)
    requires Sound(env, s) && CacheAgrees(s) && RecoversTo(s, t)
    requires lid in s.lineages && id in LineageAt(s, lid).graph.nodes
    ensures RecoveredConservatively(LineageAt(s, lid), LineageAt(t, lid), id, t)
  {
    hide Sound, LineageSound, Compute, Reloaded, ReevaluateAll, AgreesOutside;
    var lin := LineageAt(s, lid);
    RecoveredRecord(lin, s.marks, id);
    ReloadedParts(lin, s.marks);
    SoundLineage(env, s, lid);
    CacheAgreesAt(s, lid);
    var n, n' := lin.graph.nodes[id], t.lineages[lid].graph.nodes[id];
    if lin.state.lifecycle != RetiredLineage {
      AgreesOutsideAt(lin, s.marks, s.publishers, id);
    }
    NothingIsCurrent(env, lid, lin, s.marks, s.publishers, id, n');
    RecoveredExact(lin.state, t.lineages[lid].state, s.marks, n, n');
  }

  lemma AgreesOutsideAt(lin: Lineage, m: Watermarks, p: Registry, id: nat)
    requires LineageAgrees(lin, m, p) && lin.state.lifecycle != RetiredLineage
    ensures AgreesAt(lin.state, lin.graph, m, p, id)
  {
    hide Agrees;
  }

  /** Conservative recovery of every store that a run from the empty one reaches. */
  lemma ReachedRecovery(env: Env, ops: seq<Op>, present: Store)
    requires env.CollisionFree() && Obeys(env, EMPTY_STORE, ops, EVERY_RULE)
    ensures RecoveredWhole(Run(env, EMPTY_STORE, ops), Load(present, Export(Run(env, EMPTY_STORE, ops)), env.limits))
  {
    hide Run, Obeys, Invariant, AllWithin, Load, Export, RecoveredWhole, Env.CollisionFree, AllDags;
    ReachedInvariant(env, ops);
    ReachedWithin(env, ops);
    ConservativeRecovery(env, Run(env, EMPTY_STORE, ops), present);
  }

  /** Load accepts the export of every store that a run from the empty one reaches whose lineages
      have their own routes. */
  lemma ReachedExportLoads(env: Env, ops: seq<Op>, present: Store)
    requires env.CollisionFree() && Obeys(env, EMPTY_STORE, ops, {Fits, OwnRoute})
    ensures LoadsAs(Run(env, EMPTY_STORE, ops), Load(present, Export(Run(env, EMPTY_STORE, ops)), env.limits))
  {
    hide Run, Obeys, Sound, AllWithin, Load, Export, RecoversTo, Env.CollisionFree, AllDags, RoutesDistinct, Placed,
      CacheAgrees, AllTracked;
    ObeysFewer(env, EMPTY_STORE, ops, {Fits, OwnRoute}, {Fits});
    ReachedSound(env, ops);
    EmptyIsSound(env, EMPTY_STORE);
    PlacedRoutes(EMPTY_STORE);
    RunKeepsRoutes(env, EMPTY_STORE, ops);
    ReachedWithin(env, ops);
    ExportLoads(env, Run(env, EMPTY_STORE, ops), present);
  }

  lemma ReloadedParts(lin: Lineage, marks: Watermarks)
    ensures
      var lin' := ReevaluateAll(Reloaded(lin), marks);
      && lin'.graph.edges == lin.graph.edges && lin'.attempts == lin.attempts
      && lin'.state.lifecycle == lin.state.lifecycle && lin'.state.generation == lin.state.generation
  {
    hide Recomputed, CompactedRecords, HistoryRecords;
  }

  lemma RecoveredExact(st: LineageState, st': LineageState, marks: Watermarks, n: Node, n': Node)
    requires Recovered(st, marks, n, n') && st'.lifecycle == st.lifecycle && st'.generation == st.generation
    ensures n'.currentness == Recomputed(st', n', marks, map[])
    ensures n'.lifecycle == if VouchedFor(n) then RevalidationRequired else n.lifecycle
  {
    hide EvidenceGet;
  }

  // ---------------------------------------------------------------------------------------
  // The rebuilt indexes
  // ---------------------------------------------------------------------------------------

  lemma CoversTrans(x: Indexes, y: Indexes, z: Indexes)
    requires Covers(x, y) && Covers(y, z)
    ensures Covers(x, z)
  {
    hide IndexAt;
  }

  lemma {:induction false} RecordsIndexed(x: Indexes, nodes: seq<Node>, lid: nat)
    ensures Covers(x, IndexRecords(x, nodes, lid))
    ensures forall i :: 0 <= i < |nodes| ==>
              Reachable(IndexRecords(x, nodes, lid), nodes[i]) && nodes[i].id in IndexRecords(x, nodes, lid).owner
    ensures x.owner.Keys <= IndexRecords(x, nodes, lid).owner.Keys
    decreases |nodes|
  {
    hide Covers, Reachable, IndexNode;
    if nodes == [] {
      CoversSelf(x);
    } else {
      var y, z := IndexNode(x, nodes[0], lid), IndexRecords(x, nodes, lid);
      RecordsIndexed(y, nodes[1..], lid);
      IndexNodeCovers(x, nodes[0], lid);
      IndexNodeReaches(x, nodes[0], lid);
      IndexNodeOwns(x, nodes[0], lid);
      CoversTrans(x, y, z);
      forall i | 0 <= i < |nodes| ensures Reachable(z, nodes[i]) && nodes[i].id in z.owner {
        if i == 0 {
          CoversReaches(y, z, nodes[0], nodes[0]);
        } else {
          assert nodes[i] == nodes[1..][i - 1];
        }
      }
    }
  }

  lemma CoversSelf(x: Indexes)
    ensures Covers(x, x)
  {
  }

  lemma IndexNodeOwns(x: Indexes, n: Node, lid: nat)
    ensures n.id in IndexNode(x, n, lid).owner && x.owner.Keys <= IndexNode(x, n, lid).owner.Keys
  {
    hide IndexAdd;
  }

  lemma {:induction false} LineagesIndexed(x: Indexes, lineages: map<nat, Lineage>, ids: seq<nat>)
    requires forall i :: 0 <= i < |ids| ==> ids[i] in lineages
    ensures Covers(x, IndexLineages(x, lineages, ids))
    ensures forall i, id :: 0 <= i < |ids| && id in lineages[ids[i]].graph.nodes ==>
              Reachable(IndexLineages(x, lineages, ids), lineages[ids[i]].graph.nodes[id])
    decreases |ids|
  {
    hide Covers, Reachable, IndexRecords, InOrder, Sorted;
    if ids == [] {
      CoversSelf(x);
    } else {
      var g := lineages[ids[0]].graph;
      var y, z := IndexRecords(x, InOrder(g.nodes), ids[0]), IndexLineages(x, lineages, ids);
      RecordsIndexed(x, InOrder(g.nodes), ids[0]);
      LineagesIndexed(y, lineages, ids[1..]);
      CoversTrans(x, y, z);
      forall i, id | 0 <= i < |ids| && id in lineages[ids[i]].graph.nodes
        ensures Reachable(z, lineages[ids[i]].graph.nodes[id])
      {
        if i == 0 {
          var j := ListedAt(g.nodes, id);
          CoversReaches(y, z, g.nodes[id], g.nodes[id]);
        } else {
          assert ids[i] == ids[1..][i - 1];
        }
      }
    }
  }

  ghost predicate ReachedByIndex(t: Store, lid: nat, id: nat) {
    id in LineageAt(t, lid).graph.nodes ==> Reachable(t.indexes, LineageAt(t, lid).graph.nodes[id])
  }

  /** Whatever image is loaded, the rebuilt reverse indexes reach every loaded record by
      everything its currentness depends on. */
  lemma LoadIndexesEverything(present: Store, image: StoreImage, limits: Limits, t: Store, lid: nat, id: nat)
    requires Load(present, image, limits) == Success(t)
    ensures ReachedByIndex(t, lid, id)
  {
    hide LoadLineages, IndexLineages, Reachable, Recomputed;
    var lineages := LoadLineages(Loaded(map[], map[]), image.lineages, limits).value.lineages;
    var ids := Sorted(lineages.Keys);
    if lid in t.lineages && id in t.lineages[lid].graph.nodes {
      var i := PositionOf(lineages.Keys, ids, lid);
      LineagesIndexed(EMPTY_INDEXES, lineages, ids);
      SameContentReachable(t.indexes, lineages[lid].graph.nodes[id], t.lineages[lid].graph.nodes[id]);
    }
  }
}
