// The persistent image of a store (src/persistence.cpp): what export writes down and what load
// makes of it. Load re-adds every record and edge through the graph's own checks, and restores
// no live authority.
module Images {
  import opened Types
  import opened Ordering
  import opened GraphModel
  import opened StoreTypes
  import opened CurrentnessModel
  import opened CommitPipeline

  datatype StoredAttempt = StoredAttempt(publisher: nat, attempt: nat, record: AttemptRecord)

  datatype StoredLineage = StoredLineage(
    state: LineageState, nodes: seq<Node>, edges: seq<Edge>, attempts: seq<StoredAttempt>)

  datatype StoreImage = StoreImage(marks: Watermarks, lineages: seq<StoredLineage>)

  // ---------------------------------------------------------------------------------------
  // Export
  // ---------------------------------------------------------------------------------------

  lemma SortedKeys<T>(m: map<nat, T>)
    ensures |Sorted(m.Keys)| == |m|
    ensures forall i :: 0 <= i < |Sorted(m.Keys)| ==> Sorted(m.Keys)[i] in m
  {
    hide Sorted;
    SortedAll(m.Keys);
    assert |m.Keys| == |m|;
  }

  function InOrder<T>(m: map<nat, T>): (r: seq<T>)
    ensures |r| == |m|
    ensures forall i :: 0 <= i < |r| ==> Sorted(m.Keys)[i] in m && r[i] == m[Sorted(m.Keys)[i]]
  {
    var keys := Sorted(m.Keys);
    SortedKeys(m);
    seq(|keys|, i requires 0 <= i < |keys| => m[keys[i]])
  }

  function StoredAttempts(attempts: map<AttemptKey, AttemptRecord>): (r: seq<StoredAttempt>)
    ensures |r| == |attempts|
    ensures forall i :: 0 <= i < |r| ==>
              var k := SortedPairs(attempts.Keys)[i];
              k in attempts && r[i] == StoredAttempt(k.0, k.1, attempts[k])
  {
    var keys := SortedPairs(attempts.Keys);
    SortedPairsAll(attempts.Keys);
    assert |attempts.Keys| == |attempts|;
    seq(|keys|, i requires 0 <= i < |keys| => StoredAttempt(keys[i].0, keys[i].1, attempts[keys[i]]))
  }

  function Stored(lin: Lineage): StoredLineage {
    StoredLineage(lin.state, InOrder(lin.graph.nodes), InOrder(lin.graph.edges), StoredAttempts(lin.attempts))
  }

  function Export(s: Store): StoreImage {
    var lineages := InOrder(s.lineages);
    StoreImage(s.marks, seq(|lineages|, i requires 0 <= i < |lineages| => Stored(lineages[i])))
  }

  // ---------------------------------------------------------------------------------------
  // Load
  // ---------------------------------------------------------------------------------------

  function LoadNodes(g: Graph, nodes: seq<Node>, limits: Limits): Result<Graph>
    decreases |nodes|
  {
    if nodes == [] then Success(g)
    else if AddNodeOutcome(g, nodes[0], limits) != Ok then Failure(StoreCorrupt)
    else LoadNodes(AddNode(g, nodes[0], limits), nodes[1..], limits)
  }

  ghost function LoadEdges(g: Graph, edges: seq<Edge>, limits: Limits): Result<Graph>
    decreases |edges|
  {
    if edges == [] then Success(g)
    else if AddEdgeOutcome(g, edges[0], limits) != Ok then Failure(StoreCorrupt)
    else LoadEdges(WithEdge(g, edges[0]), edges[1..], limits)
  }

  /** The derivation index that adding the edges builds: the first edge of a derivation wins. */
  function Derivations(m: map<nat, nat>, edges: seq<Edge>): map<nat, nat>
    decreases |edges|
  {
    if edges == [] then m
    else Derivations(if edges[0].derivation in m then m else m[edges[0].derivation := edges[0].id], edges[1..])
  }

  function LoadAttempts(m: map<AttemptKey, AttemptRecord>, attempts: seq<StoredAttempt>): map<AttemptKey, AttemptRecord>
    decreases |attempts|
  {
    if attempts == [] then m
    else
      var k := (attempts[0].publisher, attempts[0].attempt);
      LoadAttempts(if k in m then m else m[k := attempts[0].record], attempts[1..])
  }

  predicate VouchedFor(n: Node) {
    n.currentness == IsCurrent && n.lifecycle == Current
  }

  /** A record that was current because a live session vouched for it needs revalidation. */
  function Demoted(n: Node): Node {
    if VouchedFor(n)
    then n.(lifecycle := RevalidationRequired, currentness := NeedsRevalidation, revalidationRequired := true)
    else n
  }

  function Demote(g: Graph): Graph {
    g.(nodes := map id | id in g.nodes :: Demoted(g.nodes[id]))
  }

  function CompactedRecords(g: Graph): set<nat> {
    set id | id in g.nodes && g.nodes[id].core.kind == CompactedSummary
  }

  /** The lineage a validated graph is loaded as: demoted and recounted. */
  function LoadedAs(st: LineageState, edges: Graph, attempts: map<AttemptKey, AttemptRecord>): Result<Lineage> {
    var g := Demote(edges);
    if st.currentNode != 0 && st.currentNode !in g.nodes then Failure(StoreCorrupt)
    else Success(Lineage(
      st.(nodeCount := |g.nodes|, edgeCount := |g.edges|, historyCount := |HistoryRecords(g)|,
          compactedCount := |CompactedRecords(g)|),
      g, attempts))
  }

  ghost function LoadGraph(stored: StoredLineage, limits: Limits): Result<Graph> {
    match LoadNodes(EMPTY_GRAPH, stored.nodes, limits)
    case Failure(o) => Failure(o)
    case Success(nodes) => LoadEdges(nodes, stored.edges, limits)
  }

  /** The graph of a stored lineage, if every part is accepted and the whole is consistent. */
  ghost function Rebuilt(stored: StoredLineage, limits: Limits): Result<Graph> {
    match LoadGraph(stored, limits)
    case Failure(o) => Failure(o)
    case Success(g) =>
      if !WellFormed(g) || !StructureOk(g, Derivations(map[], stored.edges)) then Failure(StoreCorrupt) else Success(g)
  }

  ghost function LoadLineage(stored: StoredLineage, limits: Limits): Result<Lineage> {
    match Rebuilt(stored, limits)
    case Failure(o) => Failure(o)
    case Success(g) => LoadedAs(stored.state, g, LoadAttempts(map[], stored.attempts))
  }

  datatype Loaded = Loaded(lineages: map<nat, Lineage>, routes: map<nat, nat>)

  ghost function LoadLineages(done: Loaded, stored: seq<StoredLineage>, limits: Limits): Result<Loaded>
    decreases |stored|
  {
    if stored == [] then Success(done)
    else
      var st := stored[0].state;
      match LoadLineage(stored[0], limits)
      case Failure(o) => Failure(o)
      case Success(lin) =>
        if st.id in done.lineages || st.key.route in done.routes then Failure(StoreCorrupt)
        else LoadLineages(Loaded(done.lineages[st.id := lin], done.routes[st.key.route := st.id]), stored[1..], limits)
  }

  function IndexRecords(x: Indexes, nodes: seq<Node>, lid: nat): Indexes
    decreases |nodes|
  {
    if nodes == [] then x else IndexRecords(IndexNode(x, nodes[0], lid), nodes[1..], lid)
  }

  function IndexLineages(x: Indexes, lineages: map<nat, Lineage>, ids: seq<nat>): Indexes
    decreases |ids|
  {
    if ids == [] then x
    else if ids[0] !in lineages then IndexLineages(x, lineages, ids[1..])
    else IndexLineages(IndexRecords(x, InOrder(lineages[ids[0]].graph.nodes), ids[0]), lineages, ids[1..])
  }

  const EMPTY_INDEXES: Indexes := Indexes(map[], map[], map[], map[], map[], map[])

  function ReevaluateAll(lin: Lineage, marks: Watermarks): Lineage {
    lin.(graph := Refresh(lin.state, lin.graph, marks, map[], lin.graph.nodes.Keys))
  }

  /** The in-memory part of load: nothing of the present store survives but the bootstrap flag. */
  ghost function Load(s: Store, image: StoreImage, limits: Limits): Result<Store> {
    match LoadLineages(Loaded(map[], map[]), image.lineages, limits)
    case Failure(o) => Failure(o)
    case Success(loaded) =>
      Success(Store(
        map lid | lid in loaded.lineages :: ReevaluateAll(loaded.lineages[lid], image.marks),
        loaded.routes, IndexLineages(EMPTY_INDEXES, loaded.lineages, Sorted(loaded.lineages.Keys)), image.marks, map[],
        true, s.epochBootstrapped))
  }
}
