// What any sequence of additions to a graph of one lineage leaves, the structural check of
// src/graph.cpp accepts.
module Structure {
  import opened Types
  import opened Digraph
  import opened GraphModel
  import opened StoreTypes
  import GraphClass = ProvenanceGraphClass

  /** Edges with the same derivation are the same edge. */
  lemma SameDerivationSameEdge(env: Env, a: Edge, b: Edge)
    requires env.CollisionFree() && a == env.FinalizeEdge(a) && b == env.FinalizeEdge(b)
    requires a.derivation == b.derivation
    ensures a.id == b.id
  {
    assert env.derivationIdOf(CanonEdge(a)) == a.derivation;
    assert env.derivationIdOf(CanonEdge(b)) == b.derivation;
    assert CanonEdge(a).lineage == a.lineage && CanonEdge(a).etype == a.etype && CanonEdge(a).from == a.from &&
           CanonEdge(a).to == a.to;
  }

  predicate FinalEdge(env: Env, lid: nat, e: Edge) {
    e.lineage == lid && e == env.FinalizeEdge(e)
  }

  /** Records and edges of one lineage, the edges with the identities derived from their content. */
  ghost predicate OneLineage(env: Env, lid: nat, g: Graph) {
    && (forall n :: n in g.nodes ==> g.nodes[n].core.lineage == lid)
    && (forall e :: e in g.edges ==> FinalEdge(env, lid, g.edges[e]))
  }

  predicate Belongs(env: Env, lid: nat, x: Addition) {
    match x
    case NodeAddition(n) => n.core.lineage == lid
    case EdgeAddition(e) => FinalEdge(env, lid, e)
  }

  lemma {:induction false} AdditionsOfOneLineage(env: Env, lid: nat, g: Graph, xs: seq<Addition>, limits: Limits)
    requires OneLineage(env, lid, g) && forall x :: x in xs ==> Belongs(env, lid, x)
    ensures OneLineage(env, lid, AddAll(g, xs, limits))
    decreases |xs|
  {
    hide Env.FinalizeEdge, AddNodeOutcome, AddEdgeOutcome;
    if xs != [] {
      assert Belongs(env, lid, xs[0]);
      match xs[0]
      case NodeAddition(n) => AdditionsOfOneLineage(env, lid, AddNode(g, n, limits), xs[1..], limits);
      case EdgeAddition(e) => AdditionsOfOneLineage(env, lid, AddEdge(g, e, limits), xs[1..], limits);
    }
  }

  /** With collision-free identities an acyclic graph of one lineage agrees with its derivation
      index. */
  lemma DagStructureOk(env: Env, lid: nat, g: Graph, derivations: map<nat, nat>)
    requires env.CollisionFree() && IsDag(g) && OneLineage(env, lid, g)
    requires GraphClass.IndexesDerivations(g, derivations)
    ensures StructureOk(g, derivations)
  {
    hide Env.CollisionFree, Env.FinalizeEdge, Acyclic, EdgeArcs;
    forall e | e in g.edges ensures EdgeAgrees(g, derivations, g.edges[e]) {
      var other := g.edges[derivations[g.edges[e].derivation]];
      SameDerivationSameEdge(env, g.edges[e], other);
    }
  }

  /** Whatever is added, accepted or refused, the graph object that holds the result passes its
      own structural check. */
  lemma AdditionsPassTheCheck(env: Env, lid: nat, xs: seq<Addition>, limits: Limits, graph: GraphClass.ProvenanceGraph)
    requires env.CollisionFree() && forall x :: x in xs ==> Belongs(env, lid, x)
    requires graph.Valid() && graph.View() == AddAll(EMPTY_GRAPH, xs, limits)
    ensures graph.Indexed() && StructureOk(graph.View(), graph.derivations)
  {
    hide Env.CollisionFree, Belongs, OneLineage, StructureOk, AddAll, IsDag, GraphClass.IndexesDerivations,
      GraphClass.IndexesAdjacency;
    EmptyGraphIsOneLineage(env, lid);
    AdditionsOfOneLineage(env, lid, EMPTY_GRAPH, xs, limits);
    AdditionsKeepDag(EMPTY_GRAPH, xs, limits);
    DagStructureOk(env, lid, graph.View(), graph.derivations);
  }

  lemma EmptyGraphIsOneLineage(env: Env, lid: nat)
    ensures OneLineage(env, lid, EMPTY_GRAPH) && IsDag(EMPTY_GRAPH)
  {
    assert EdgeArcs(EMPTY_GRAPH) == {};
  }
}
