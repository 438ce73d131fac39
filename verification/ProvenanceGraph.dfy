// The bounded provenance DAG of src/graph.cpp: record and edge maps with sorted adjacency
// indexes, a depth-first cycle check, bounded breadth-first traversal and Kahn's order.
module ProvenanceGraphClass {
  import opened Types
  import opened Digraph
  import opened Ordering
  import opened GraphModel
  import opened Kahn
  import opened Bfs

  /** The adjacency lists of one direction list exactly the edges at each node, ascending. */
  ghost predicate IndexesAdjacency(g: Graph, d: Direction, adjacency: map<nat, seq<nat>>) {
    && adjacency.Keys == g.nodes.Keys
    && forall n :: n in adjacency ==> Enumerates(adjacency[n], EdgesAt(g, d, n))
  }

  ghost predicate IndexesDerivations(g: Graph, derivations: map<nat, nat>) {
    && (forall k :: k in derivations ==>
          derivations[k] in g.edges && g.edges[derivations[k]].derivation == k)
    && (forall e :: e in g.edges ==> g.edges[e].derivation in derivations)
  }

  lemma IndexCount(g: Graph, d: Direction, adjacency: map<nat, seq<nat>>, n: nat)
    requires IndexesAdjacency(g, d, adjacency) && n in adjacency
    ensures |adjacency[n]| == |EdgesAt(g, d, n)|
  {
    AscendingSize(adjacency[n], EdgesAt(g, d, n));
  }

  lemma ListedEdges(g: Graph, d: Direction, adjacency: map<nat, seq<nat>>, n: nat)
    requires WellFormed(g) && IndexesAdjacency(g, d, adjacency) && n in adjacency
    ensures forall i :: 0 <= i < |adjacency[n]| ==>
              && adjacency[n][i] in g.edges && g.edges[adjacency[n][i]].from in g.nodes
              && g.edges[adjacency[n][i]].to in g.nodes
  {
    forall i | 0 <= i < |adjacency[n]| ensures adjacency[n][i] in EdgesAt(g, d, n) {
      assert adjacency[n][i] in adjacency[n];
    }
  }

  /** The far ends of the listed edges that the filter keeps. */
  ghost function EdgeHeads(g: Graph, d: Direction, keep: EdgeTypeFilter, list: seq<nat>): set<nat> {
    set e | e in list && e in g.edges && keep(g.edges[e].etype) :: Head(g.edges[e], d)
  }

  lemma EdgeHeadsStep(g: Graph, d: Direction, keep: EdgeTypeFilter, list: seq<nat>, i: nat)
    requires i < |list| && list[i] in g.edges
    ensures
      var e := g.edges[list[i]];
      EdgeHeads(g, d, keep, list[..i + 1]) ==
      EdgeHeads(g, d, keep, list[..i]) + if keep(e.etype) then {Head(e, d)} else {}
  {
    assert list[..i + 1] == list[..i] + [list[i]];
  }

  lemma EdgeHeadsAll(g: Graph, d: Direction, keep: EdgeTypeFilter, adjacency: map<nat, seq<nat>>,
                     n: nat)
    requires IndexesAdjacency(g, d, adjacency) && n in adjacency
    ensures EdgeHeads(g, d, keep, adjacency[n][..0]) == {}
    ensures adjacency[n][..|adjacency[n]|] == adjacency[n]
    ensures EdgeHeads(g, d, keep, adjacency[n]) == Heads(FilteredArcs(g, d, keep), {n})
  {
    var arcs := FilteredArcs(g, d, keep);
    forall w | w in EdgeHeads(g, d, keep, adjacency[n]) ensures w in Heads(arcs, {n}) {
      var e :| e in adjacency[n] && e in g.edges && keep(g.edges[e].etype) && Head(g.edges[e], d) == w;
      assert e in EdgesAt(g, d, n);
      assert (n, w) in arcs;
    }
    forall w | w in Heads(arcs, {n}) ensures w in EdgeHeads(g, d, keep, adjacency[n]) {
      var e :| e in g.edges && keep(g.edges[e].etype) && Tail(g.edges[e], d) == n &&
               Head(g.edges[e], d) == w;
      assert e in EdgesAt(g, d, n);
    }
  }

  lemma ListedHead(g: Graph, d: Direction, keep: EdgeTypeFilter, adjacency: map<nat, seq<nat>>,
                   n: nat, i: nat)
    requires IndexesAdjacency(g, d, adjacency) && n in adjacency && i < |adjacency[n]|
    requires adjacency[n][i] in g.edges && keep(g.edges[adjacency[n][i]].etype)
    ensures Head(g.edges[adjacency[n][i]], d) in Heads(FilteredArcs(g, d, keep), {n})
  {
    EdgeHeadsAll(g, d, keep, adjacency, n);
    assert adjacency[n][i] in adjacency[n];
  }

  lemma IndexesWithEdge(g: Graph, d: Direction, adjacency: map<nat, seq<nat>>, e: Edge)
    requires IndexesAdjacency(g, d, adjacency) && e.id !in g.edges && Tail(e, d) in adjacency
    ensures IndexesAdjacency(WithEdge(g, e), d,
                    adjacency[Tail(e, d) := Insert(adjacency[Tail(e, d)], e.id)])
  {
    hide Insert;
    var h := WithEdge(g, e);
    InsertAscending(adjacency[Tail(e, d)], e.id);
    forall n | n in adjacency
      ensures EdgesAt(h, d, n) == EdgesAt(g, d, n) + if n == Tail(e, d) then {e.id} else {}
    {
      assert forall k :: k in g.edges ==> h.edges[k] == g.edges[k];
    }
  }

  /** The first edge of a derivation wins. */
  function WithDerivation(derivations: map<nat, nat>, e: Edge): map<nat, nat> {
    if e.derivation in derivations then derivations else derivations[e.derivation := e.id]
  }

  lemma DerivationsWithEdge(g: Graph, derivations: map<nat, nat>, e: Edge)
    requires IndexesDerivations(g, derivations) && e.id !in g.edges
    ensures IndexesDerivations(WithEdge(g, e),
              if e.derivation in derivations then derivations
              else derivations[e.derivation := e.id])
  {
  }

  lemma IndexesWithNode(g: Graph, d: Direction, adjacency: map<nat, seq<nat>>, n: Node)
    requires WellFormed(g) && IndexesAdjacency(g, d, adjacency) && n.id !in g.nodes
    ensures IndexesAdjacency(g.(nodes := g.nodes[n.id := n]), d, adjacency[n.id := []])
  {
    hide Acyclic;
    var h := g.(nodes := g.nodes[n.id := n]);
    assert EdgesAt(h, d, n.id) == {};
    assert forall m :: EdgesAt(h, d, m) == EdgesAt(g, d, m);
  }

  lemma DerivationsWithNode(g: Graph, derivations: map<nat, nat>, n: Node)
    requires IndexesDerivations(g, derivations)
    ensures IndexesDerivations(g.(nodes := g.nodes[n.id := n]), derivations)
  {
  }

  lemma IndexesSameShape(g: Graph, h: Graph, d: Direction, adjacency: map<nat, seq<nat>>)
    requires IndexesAdjacency(g, d, adjacency) && g.edges == h.edges && g.nodes.Keys == h.nodes.Keys
    ensures IndexesAdjacency(h, d, adjacency)
  {
    assert forall m :: EdgesAt(h, d, m) == EdgesAt(g, d, m);
  }

  /** A depth-first search for a goal: everything visited is reachable, everything visited and no
      longer waiting is not the goal and has all its heads visited. */
  ghost predicate SearchState(arcs: Arcs, origin: nat, goal: nat, waiting: set<nat>, visited: set<nat>)
  {
    && origin in visited && waiting <= visited
    && (forall v :: v in visited ==> Reaches(arcs, origin, v))
    && goal !in visited - waiting
    && Heads(arcs, visited - waiting) <= visited
  }

  lemma SearchStep(arcs: Arcs, origin: nat, goal: nat, waiting: set<nat>, rest: set<nat>,
                   visited: set<nat>, current: nat, after: set<nat>)
    requires SearchState(arcs, origin, goal, waiting, visited)
    requires current in waiting && current != goal && waiting - {current} <= rest <= waiting
    requires after == visited + Heads(arcs, {current})
    ensures SearchState(arcs, origin, goal, rest + (after - visited), after)
  {
    forall v | v in after - visited ensures Reaches(arcs, origin, v) {
      ReachesArc(arcs, current, v);
      ReachesTrans(arcs, origin, current, v);
    }
    var settled := after - (rest + (after - visited));
    assert settled <= (visited - waiting) + {current};
  }

  lemma SearchDone(arcs: Arcs, origin: nat, goal: nat, visited: set<nat>)
    requires SearchState(arcs, origin, goal, {}, visited)
    ensures !Reaches(arcs, origin, goal)
  {
    forall u, v | (u, v) in arcs && u in visited ensures v in visited {
      assert u in visited - {} && (u, v).1 in Heads(arcs, visited - {});
    }
    if Reaches(arcs, origin, goal) {
      ClosedContainsReached(arcs, visited, origin, goal);
    }
  }

  /** Seen so far: the old set and these heads; the novel ones among them, each once. */
  ghost predicate Visiting(all: set<nat>, seen: set<nat>, heads: set<nat>, visited: set<nat>,
                           novel: seq<nat>) {
    && visited == seen + heads && visited <= all
    && Elements(novel) == visited - seen && |novel| == |visited| - |seen|
  }

  lemma HeadOutgoing(e: Edge)
    ensures Head(e, Outgoing) == e.to && ALL_TYPES(e.etype)
  {
  }

  lemma VisitStart(all: set<nat>, seen: set<nat>)
    requires seen <= all
    ensures Visiting(all, seen, {}, seen, [])
  {
  }

  lemma VisitStep(all: set<nat>, seen: set<nat>, heads: set<nat>, visited: set<nat>,
                  novel: seq<nat>, x: nat)
    requires Visiting(all, seen, heads, visited, novel) && x in all
    ensures |visited + {x}| <= |all|
    ensures x in visited ==> Visiting(all, seen, heads + {x}, visited, novel)
    ensures x !in visited ==> Visiting(all, seen, heads + {x}, visited + {x}, novel + [x])
  {
    SubsetSize(visited + {x}, all);
    ElementsConcat(novel, [x]);
  }

  lemma ElementsConcat(s: seq<nat>, t: seq<nat>)
    ensures Elements(s + t) == Elements(s) + Elements(t)
  {
  }

  /** What the class maintains, over the values of its fields. */
  ghost predicate Consistent(g: Graph, outgoing: map<nat, seq<nat>>, incoming: map<nat, seq<nat>>,
                             derivations: map<nat, nat>) {
    && WellFormed(g)
    && IndexesAdjacency(g, Outgoing, outgoing)
    && IndexesAdjacency(g, Incoming, incoming)
    && IndexesDerivations(g, derivations)
  }

  lemma DagWithEdge(g: Graph, outgoing: map<nat, seq<nat>>, incoming: map<nat, seq<nat>>,
                    derivations: map<nat, nat>, e: Edge)
    requires Consistent(g, outgoing, incoming, derivations) && IsDag(g)
    requires e.id !in g.edges && e.from in g.nodes && e.to in g.nodes
    requires !Reaches(EdgeArcs(g), e.to, e.from)
    ensures e.from in outgoing && Ascending(outgoing[e.from])
    ensures e.to in incoming && Ascending(incoming[e.to])
    ensures Consistent(WithEdge(g, e),
              outgoing[e.from := Insert(outgoing[e.from], e.id)],
              incoming[e.to := Insert(incoming[e.to], e.id)],
              if e.derivation in derivations then derivations
              else derivations[e.derivation := e.id])
    ensures IsDag(WithEdge(g, e))
  {
    ConsistentWithEdge(g, outgoing, incoming, derivations, e);
    ArcsWithEdge(g, e);
    AddArcAcyclic(EdgeArcs(g), e.from, e.to);
  }

  lemma ConsistentWithEdge(g: Graph, outgoing: map<nat, seq<nat>>, incoming: map<nat, seq<nat>>,
                           derivations: map<nat, nat>, e: Edge)
    requires Consistent(g, outgoing, incoming, derivations)
    requires e.id !in g.edges && e.from in g.nodes && e.to in g.nodes
    ensures Consistent(WithEdge(g, e),
              outgoing[e.from := Insert(outgoing[e.from], e.id)],
              incoming[e.to := Insert(incoming[e.to], e.id)],
              if e.derivation in derivations then derivations
              else derivations[e.derivation := e.id])
  {
    hide Enumerates, EdgesAt, Insert, IndexesDerivations;
    IndexesWithEdge(g, Outgoing, outgoing, e);
    IndexesWithEdge(g, Incoming, incoming, e);
    DerivationsWithEdge(g, derivations, e);
  }

  lemma ConsistentSameShape(g: Graph, h: Graph, outgoing: map<nat, seq<nat>>,
                            incoming: map<nat, seq<nat>>, derivations: map<nat, nat>)
    requires Consistent(g, outgoing, incoming, derivations) && IsDag(g)
    requires g.edges == h.edges && g.nodes.Keys == h.nodes.Keys
    requires forall n :: n in h.nodes ==> h.nodes[n].id == n
    ensures Consistent(h, outgoing, incoming, derivations) && IsDag(h)
  {
    IndexesSameShape(g, h, Outgoing, outgoing);
    IndexesSameShape(g, h, Incoming, incoming);
    ArcsOfSameEdges(g, h);
  }

  ghost predicate KeyedById(g: Graph) {
    && (forall n :: n in g.nodes ==> g.nodes[n].id == n && n != 0)
    && (forall e :: e in g.edges ==> g.edges[e].id == e)
  }

  /** No edge is missing from the list of its end, every node has a list, every list ascends. */
  ghost predicate Lists(g: Graph, d: Direction, adjacency: map<nat, seq<nat>>) {
    && g.nodes.Keys <= adjacency.Keys
    && (forall n :: n in adjacency ==> Ascending(adjacency[n]))
    && (forall e :: e in g.edges && Tail(g.edges[e], d) in adjacency ==> e in adjacency[Tail(g.edges[e], d)])
  }

  /** The list is of a present node and holds only edges at it. */
  ghost predicate ListOnly(g: Graph, d: Direction, n: nat, list: seq<nat>) {
    n in g.nodes && forall i :: 0 <= i < |list| ==> list[i] in g.edges && Tail(g.edges[list[i]], d) == n
  }

  ghost predicate ListsOnly(g: Graph, d: Direction, adjacency: map<nat, seq<nat>>) {
    forall n :: n in adjacency ==> ListOnly(g, d, n, adjacency[n])
  }

  lemma IndexesIsLists(g: Graph, d: Direction, adjacency: map<nat, seq<nat>>)
    requires IndexesAdjacency(g, d, adjacency)
    ensures Lists(g, d, adjacency)
  {
    forall e | e in g.edges && Tail(g.edges[e], d) in adjacency ensures e in adjacency[Tail(g.edges[e], d)] {
      assert e in EdgesAt(g, d, Tail(g.edges[e], d));
    }
  }

  lemma ListsIsIndexes(g: Graph, d: Direction, adjacency: map<nat, seq<nat>>)
    requires Lists(g, d, adjacency)
    ensures ListsOnly(g, d, adjacency) <==> IndexesAdjacency(g, d, adjacency)
  {
    if ListsOnly(g, d, adjacency) {
      forall n | n in adjacency ensures n in g.nodes && Enumerates(adjacency[n], EdgesAt(g, d, n)) {
        assert ListOnly(g, d, n, adjacency[n]);
      }
    } else if IndexesAdjacency(g, d, adjacency) {
      forall n | n in adjacency ensures ListOnly(g, d, n, adjacency[n]) {
        forall i | 0 <= i < |adjacency[n]| ensures adjacency[n][i] in EdgesAt(g, d, n) {
          assert adjacency[n][i] in adjacency[n];
        }
      }
    }
  }

  /** The endpoints exist, and the edge agrees with them and with the derivation index. */
  ghost predicate GoodEdge(g: Graph, derivations: map<nat, nat>, e: Edge) {
    e.from in g.nodes && e.to in g.nodes && EdgeAgrees(g, derivations, e)
  }

  lemma GoodEdgeIs(g: Graph, derivations: map<nat, nat>, e: Edge)
    ensures GoodEdge(g, derivations, e) <==>
            && e.from in g.nodes && e.to in g.nodes
            && g.nodes[e.from].core.lineage == e.lineage && g.nodes[e.to].core.lineage == e.lineage
            && e.derivation in derivations && derivations[e.derivation] == e.id
  {
  }

  class ProvenanceGraph {
    var nodes: map<nat, Node>
    var edges: map<nat, Edge>
    var derivations: map<nat, nat>
    var outgoing: map<nat, seq<nat>>
    var incoming: map<nat, seq<nat>>

    ghost function View(): Graph
      reads this
    {
      Graph(nodes, edges)
    }

    /** The index maps agree with the node and edge sets. */
    ghost predicate Indexed()
      reads this
    {
      Consistent(View(), outgoing, incoming, derivations)
    }

    ghost predicate Valid()
      reads this
    {
      Indexed() && IsDag(View())
    }

    constructor ()
      ensures Valid() && View() == EMPTY_GRAPH && derivations == map[]
    {
      nodes, edges, derivations, outgoing, incoming := map[], map[], map[], map[], map[];
    }

    method AddNode(node: Node, limits: Limits) returns (r: Outcome)
      requires Valid()
      modifies this
      ensures Valid()
      ensures r == AddNodeOutcome(old(View()), node, limits)
      ensures View() == GraphModel.AddNode(old(View()), node, limits) && derivations == old(derivations)
    {
      hide IndexesAdjacency, IndexesDerivations, IsDag, CanonCore;
      if node.id == 0 {
        return MalformedRequest;
      }
      var consistency := ValidateNode(node);
      if consistency != Ok {
        return consistency;
      }
      if node.id in nodes {
        return if CanonCore(nodes[node.id].core) == CanonCore(node.core) then Duplicate else Conflict;
      }
      if |nodes| >= limits.maxNodes {
        return ResourceLimit;
      }
      IndexesWithNode(View(), Outgoing, outgoing, node);
      IndexesWithNode(View(), Incoming, incoming, node);
      DerivationsWithNode(View(), derivations, node);
      AddNodeKeepsDag(View(), node, limits);
      nodes := nodes[node.id := node];
      outgoing := outgoing[node.id := []];
      incoming := incoming[node.id := []];
      return Ok;
    }

    /** The adjacency index of a direction. */
    function Adjacency(d: Direction): map<nat, seq<nat>>
      reads this
    {
      if d.Outgoing? then outgoing else incoming
    }

    lemma ListedTargets(d: Direction, keep: EdgeTypeFilter, n: nat)
      requires Indexed() && n in nodes
      ensures n in Adjacency(d)
      ensures
        var list := Adjacency(d)[n];
        && (forall i :: 0 <= i < |list| ==>
              && list[i] in edges && Head(edges[list[i]], d) in nodes
              && (keep(edges[list[i]].etype) ==>
                    Head(edges[list[i]], d) in Heads(FilteredArcs(View(), d, keep), {n})))
        && EdgeHeads(View(), d, keep, list[..0]) == {}
        && EdgeHeads(View(), d, keep, list) == Heads(FilteredArcs(View(), d, keep), {n})
    {
      var list := Adjacency(d)[n];
      ListedEdges(View(), d, Adjacency(d), n);
      EdgeHeadsAll(View(), d, keep, Adjacency(d), n);
      forall i | 0 <= i < |list| && keep(edges[list[i]].etype)
        ensures Head(edges[list[i]], d) in Heads(FilteredArcs(View(), d, keep), {n})
      {
        ListedHead(View(), d, keep, Adjacency(d), n, i);
      }
    }

    lemma ViewIs()
      ensures View() == Graph(nodes, edges)
    {
    }

    lemma NoZero()
      requires Valid()
      ensures 0 !in nodes && Indexed()
    {
    }

    /** Visits the targets of the edges leaving a record; the ones not seen before are returned
        in the order they are to be pushed. */
    method VisitTargets(current: nat, seen: set<nat>, limit: nat)
      returns (visited: set<nat>, novel: seq<nat>, exceeded: bool)
      requires Indexed() && current in nodes && seen <= nodes.Keys
      ensures exceeded ==> limit < |nodes|
      ensures !exceeded ==>
                Visiting(nodes.Keys, seen, Heads(EdgeArcs(View()), {current}), visited, novel)
    {
      hide *;
      ListedTargets(Outgoing, ALL_TYPES, current);
      UnfilteredArcs(View());
      AdjacencyIs();
      ViewIs();
      ghost var g, list := View(), outgoing[current];
      visited, novel, exceeded := seen, [], false;
      VisitStart(nodes.Keys, seen);
      var i := 0;
      while i < |outgoing[current]|
        invariant 0 <= i <= |list| && !exceeded
        invariant Visiting(nodes.Keys, seen, EdgeHeads(g, Outgoing, ALL_TYPES, list[..i]), visited, novel)
      {
        var target := edges[outgoing[current][i]].to;
        EdgeHeadsStep(g, Outgoing, ALL_TYPES, list, i);
        HeadOutgoing(edges[list[i]]);
        VisitStep(nodes.Keys, seen, EdgeHeads(g, Outgoing, ALL_TYPES, list[..i]), visited, novel,
                  target);
        if target !in visited {
          visited := visited + {target};
          if |visited| > limit {
            return visited, novel, true;
          }
          novel := novel + [target];
        }
        i := i + 1;
      }
      assert list[..i] == list;
    }

    lemma AdjacencyIs()
      ensures Adjacency(Outgoing) == outgoing && Adjacency(Incoming) == incoming
    {
    }

    /** outgoing_edges: the edges leaving a record, ascending; none for an unknown record. */
    method OutgoingIds(id: nat) returns (ids: seq<nat>)
      requires Valid()
      ensures ids == Sorted(EdgesAt(View(), Outgoing, id))
    {
      if id !in nodes {
        assert EdgesAt(View(), Outgoing, id) == {};
        return [];
      }
      EnumerationUnique(outgoing[id], Sorted(EdgesAt(View(), Outgoing, id)), EdgesAt(View(), Outgoing, id));
      return outgoing[id];
    }

    /** Depth-first search from the edge's target. Exact unless the search visits more than
        max_visited_nodes records, which only a limit below the record count permits. */
    method CheckAddEdge(from: nat, to: nat, limits: Limits) returns (r: Outcome)
      requires Indexed()
      ensures r == GraphModel.CheckAddEdge(View(), from, to) ||
              (r == ResourceLimit && limits.maxVisited < |nodes|)
    {
      if from == 0 || to == 0 {
        return MalformedRequest;
      }
      if from == to {
        return CycleDetected;
      }
      if from !in nodes || to !in nodes {
        return Ok;
      }
      ghost var arcs := EdgeArcs(View());
      var stack := [to];
      var visited := {to};
      ReachesSelf(arcs, to);
      while stack != []
        invariant SearchState(arcs, to, from, Elements(stack), visited)
        invariant visited <= nodes.Keys
        decreases |nodes| - |visited|, |stack|
      {
        SubsetSize(visited, nodes.Keys);
        var current := stack[|stack| - 1];
        ghost var before, open := visited, Elements(stack);
        stack := stack[..|stack| - 1];
        if current == from {
          return CycleDetected;
        }
        var novel, exceeded;
        visited, novel, exceeded := VisitTargets(current, visited, limits.maxVisited);
        if exceeded {
          return ResourceLimit;
        }
        ghost var rest := Elements(stack);
        ElementsConcat(stack, novel);
        stack := stack + novel;
        SearchStep(arcs, to, from, open, rest, before, current, visited);
        SubsetSize(visited, nodes.Keys);
      }
      SearchDone(arcs, to, from, visited);
      return Ok;
    }

    method Link(edge: Edge)
      requires Valid()
      requires edge.id !in edges && edge.from in nodes && edge.to in nodes
      requires !Reaches(EdgeArcs(View()), edge.to, edge.from)
      modifies this
      ensures Valid() && View() == WithEdge(old(View()), edge)
      ensures derivations == WithDerivation(old(derivations), edge)
    {
      hide Consistent, IsDag;
      DagWithEdge(View(), outgoing, incoming, derivations, edge);
      edges, derivations, outgoing, incoming :=
        edges[edge.id := edge],
        if edge.derivation in derivations then derivations
        else derivations[edge.derivation := edge.id],
        outgoing[edge.from := Insert(outgoing[edge.from], edge.id)],
        incoming[edge.to := Insert(incoming[edge.to], edge.id)];
    }

    method AddEdge(edge: Edge, limits: Limits) returns (r: Outcome)
      requires Valid()
      modifies this
      ensures Valid()
      ensures r == AddEdgeOutcome(old(View()), edge, limits) ||
              (r == ResourceLimit && limits.maxVisited < |old(nodes)|)
      ensures View() == if r == Ok then WithEdge(old(View()), edge) else old(View())
      ensures r == Ok ==> AddEdgeOutcome(old(View()), edge, limits) == Ok
      ensures derivations == if r == Ok then WithDerivation(old(derivations), edge) else old(derivations)
    {
      var consistency := ValidateEdge(edge);
      if consistency != Ok {
        return consistency;
      }
      if edge.from in nodes && nodes[edge.from].core.lineage != edge.lineage {
        return InvalidDerivation;
      }
      if edge.id in edges {
        return if SameEdgeCore(edges[edge.id], edge) then Duplicate else Conflict;
      }
      if |edges| >= limits.maxEdges {
        return ResourceLimit;
      }
      if edge.from !in nodes || edge.to !in nodes {
        return MissingParent;
      }
      IndexCount(View(), Incoming, incoming, edge.to);
      if |incoming[edge.to]| >= limits.maxParents {
        return ResourceLimit;
      }
      IndexCount(View(), Outgoing, outgoing, edge.from);
      if |outgoing[edge.from]| >= limits.maxChildren {
        return ResourceLimit;
      }
      var cycle := CheckAddEdge(edge.from, edge.to, limits);
      if cycle != Ok {
        return cycle;
      }
      Link(edge);
      return Ok;
    }

    /** A record-state change: the shape of the graph is untouched. */
    method UpdateNodeState(id: nat, lifecycle: NodeLifecycle, currentness: Currentness,
                           revalidationRequired: bool) returns (r: Outcome)
      requires Valid()
      modifies this
      ensures Valid()
      ensures r == UpdateNodeStateOutcome(old(View()), id, lifecycle)
      ensures View() == GraphModel.UpdateNodeState(old(View()), id, lifecycle, currentness,
                                                   revalidationRequired)
      ensures nodes.Keys == old(nodes.Keys)
    {
      if id !in nodes {
        return NodeNotFound;
      }
      if !ValidTransition(nodes[id].lifecycle, lifecycle) {
        return InvalidDerivation;
      }
      Replace(id, nodes[id].(lifecycle := lifecycle, currentness := currentness,
                             revalidationRequired := revalidationRequired));
      return Ok;
    }

    method MarkRevalidated(id: nat) returns (r: Outcome)
      requires Valid()
      modifies this
      ensures Valid()
      ensures r == if id in old(nodes) then Ok else NodeNotFound
      ensures View() == GraphModel.MarkRevalidated(old(View()), id)
      ensures nodes.Keys == old(nodes.Keys)
    {
      if id !in nodes {
        return NodeNotFound;
      }
      Replace(id, nodes[id].(revalidated := true));
      return Ok;
    }

    method SetCorrectedBy(id: nat, replacement: nat) returns (r: Outcome)
      requires Valid()
      modifies this
      ensures Valid()
      ensures r == if id !in old(nodes) then NodeNotFound
                   else if replacement == 0 then MalformedRequest else Ok
      ensures View() == GraphModel.SetCorrectedBy(old(View()), id, replacement)
      ensures nodes.Keys == old(nodes.Keys)
    {
      if id !in nodes {
        return NodeNotFound;
      }
      if replacement == 0 {
        return MalformedRequest;
      }
      Replace(id, nodes[id].(correctedBy := Some(replacement)));
      return Ok;
    }

    /** Replaces a record's detail by a summary of the same identity. */
    method CompactNode(id: nat, tombstone: Node) returns (r: Outcome)
      requires Valid()
      modifies this
      ensures Valid()
      ensures r == CompactNodeOutcome(old(View()), id, tombstone)
      ensures View() == GraphModel.CompactNode(old(View()), id, tombstone)
      ensures nodes.Keys == old(nodes.Keys)
    {
      if id !in nodes {
        return NodeNotFound;
      }
      if tombstone.id != id {
        return MalformedRequest;
      }
      if tombstone.core.kind != CompactedSummary {
        return MalformedRequest;
      }
      var consistency := ValidateNode(tombstone);
      if consistency != Ok {
        return consistency;
      }
      Replace(id, tombstone);
      return Ok;
    }

    method Replace(id: nat, node: Node)
      requires Valid() && id in nodes && node.id == id
      modifies this
      ensures Valid() && View() == old(View()).(nodes := old(nodes)[id := node])
      ensures nodes.Keys == old(nodes.Keys)
    {
      ConsistentSameShape(View(), View().(nodes := nodes[id := node]), outgoing, incoming,
                          derivations);
      nodes := nodes[id := node];
    }

    lemma IncomingCounts(inDegree: map<nat, nat>)
      requires Indexed() && inDegree.Keys == nodes.Keys
      requires forall n :: n in inDegree ==> n in incoming && inDegree[n] == |incoming[n]|
      ensures Placing(View(), [], inDegree, ReadyNodes({}, inDegree))
    {
      forall n | n in inDegree ensures inDegree[n] == |EdgesAt(View(), Incoming, n)| {
        IndexCount(View(), Incoming, incoming, n);
      }
      StartPlacing(View(), inDegree);
    }

    lemma OutgoingListed(n: nat)
      requires Indexed() && n in nodes
      ensures n in outgoing && Ascending(outgoing[n])
      ensures Elements(outgoing[n]) == EdgesAt(View(), Outgoing, n)
      ensures WellFormed(View()) && View() == Graph(nodes, edges)
    {
    }

    lemma IncomingListed()
      requires Indexed()
      ensures incoming.Keys == nodes.Keys
      ensures WellFormed(View()) && View() == Graph(nodes, edges)
    {
    }

    method CountIncoming() returns (inDegree: map<nat, nat>)
      requires Indexed()
      ensures Placing(View(), [], inDegree, ReadyNodes({}, inDegree))
    {
      hide *;
      IncomingListed();
      var ids := Sorted(nodes.Keys);
      inDegree := map[];
      var i := 0;
      while i < |ids|
        invariant 0 <= i <= |ids|
        invariant forall n :: n in inDegree <==> n in ids[..i]
        invariant forall n :: n in inDegree ==> n in incoming && inDegree[n] == |incoming[n]|
      {
        SortedMember(nodes.Keys, i);
        assert ids[..i + 1] == ids[..i] + [ids[i]];
        inDegree := inDegree[ids[i] := |incoming[ids[i]]|];
        i := i + 1;
      }
      assert ids[..i] == ids;
      SortedMembers(nodes.Keys);
      IncomingCounts(inDegree);
    }

    /** Removes a placed node's outgoing edges from the counters. */
    method Release(current: nat, inDegree0: map<nat, nat>, ready0: set<nat>,
                   ghost placed: set<nat>, ghost pending: set<nat>)
      returns (inDegree: map<nat, nat>, ready: set<nat>)
      requires Indexed() && current in nodes
      requires EdgesAt(View(), Outgoing, current) <= pending
      requires Draining(View(), placed, pending, inDegree0, ready0)
      ensures Draining(View(), placed, pending - EdgesAt(View(), Outgoing, current), inDegree, ready)
    {
      hide *;
      OutgoingListed(current);
      ghost var g, list := View(), outgoing[current];
      inDegree, ready := inDegree0, ready0;
      NothingConsumed(g, placed, pending, inDegree, ready, list);
      var i := 0;
      while i < |outgoing[current]|
        invariant 0 <= i <= |list|
        invariant Draining(g, placed, pending - Elements(list[..i]), inDegree, ready)
      {
        ConsumeListed(g, placed, pending, inDegree, ready, list, i);
        var to := edges[outgoing[current][i]].to;
        inDegree := inDegree[to := inDegree[to] - 1];
        if inDegree[to] == 0 {
          ready := ready + {to};
        }
        i := i + 1;
      }
      assert list[..i] == list;
    }

    /** Kahn's algorithm, smallest identity first; None exactly when the graph has a cycle. */
    method TopologicalOrder() returns (r: Option<seq<nat>>)
      requires Indexed()
      ensures r.Some? <==> Acyclic(EdgeArcs(View()))
      ensures r.Some? ==> IsTopological(nodes.Keys, EdgeArcs(View()), r.value)
      ensures r.Some? ==> SmallestFirst(nodes.Keys, EdgeArcs(View()), r.value)
    {
      hide *;
      IncomingListed();
      ghost var g := View();
      var inDegree := CountIncoming();
      var ready := ReadyNodes({}, inDegree);
      var order: seq<nat> := [];
      while ready != {}
        invariant Placing(g, order, inDegree, ready)
        decreases |nodes| - |order|
      {
        var current := Least(ready);
        PlaceNode(g, order, inDegree, ready, current);
        ghost var pending := Unconsumed(g, Elements(order));
        ready := ready - {current};
        order := order + [current];
        inDegree, ready := Release(current, inDegree, ready, Elements(order), pending);
        NextPlacing(g, order, inDegree, ready);
      }
      FinishPlacing(g, order, inDegree);
      return if |order| != |nodes| then None else Some(order);
    }

    /** Reads one queue entry of a breadth-first traversal: its unseen heads are queued one layer
        further out. Exceeding a cap is possible only when the bounded ball exceeds it. */
    method ReadEntry(d: Direction, keep: EdgeTypeFilter, queue0: seq<QueueEntry>, cursor: nat,
                     visited0: set<nat>, maxResults: nat, maxVisited: nat,
                     ghost origin: nat, ghost limit: nat)
      returns (queue: seq<QueueEntry>, visited: set<nat>, exceeded: bool)
      requires Indexed() && visited0 <= nodes.Keys
      requires Exploring(FilteredArcs(View(), d, keep), origin, limit, queue0, cursor, visited0)
      requires cursor < |queue0| && queue0[cursor].depth < limit
      requires |queue0| <= maxResults && |visited0| <= maxVisited
      ensures exceeded ==> |Ball(FilteredArcs(View(), d, keep), origin, limit)| > maxResults ||
                           |Ball(FilteredArcs(View(), d, keep), origin, limit)| > maxVisited
      ensures !exceeded ==>
                && Exploring(FilteredArcs(View(), d, keep), origin, limit, queue, cursor + 1, visited)
                && visited <= nodes.Keys && |queue| <= maxResults && |visited| <= maxVisited
    {
      hide *;
      ghost var g, arcs := View(), FilteredArcs(View(), d, keep);
      var entry := queue0[cursor];
      QueuedIsVisited(arcs, origin, limit, queue0, cursor, visited0);
      ListedTargets(d, keep, entry.node);
      ViewIs();
      StartExpanding(arcs, origin, limit, queue0, cursor, visited0);
      queue, visited, exceeded := queue0, visited0, false;
      var list := Adjacency(d)[entry.node];
      var i := 0;
      while i < |list|
        invariant 0 <= i <= |list| && !exceeded
        invariant cursor < |queue| && queue[cursor] == entry
        invariant Expanding(arcs, origin, limit, queue, cursor, visited,
                            EdgeHeads(g, d, keep, list[..i]))
        invariant visited <= nodes.Keys && |queue| <= maxResults && |visited| <= maxVisited
      {
        var edge := edges[list[i]];
        var next := Head(edge, d);
        ghost var heads := EdgeHeads(g, d, keep, list[..i]);
        EdgeHeadsStep(g, d, keep, list, i);
        i := i + 1;
        if !keep(edge.etype) {
          assert heads + {} == heads;
          continue;
        }
        ExpandHead(arcs, origin, limit, queue, cursor, visited, heads, next);
        if next in visited {
          continue;
        }
        FreshHeadCounts(arcs, origin, limit, queue, cursor, visited, heads, next);
        visited := visited + {next};
        if |visited| > maxVisited {
          return queue, visited, true;
        }
        if |queue| >= maxResults {
          return queue, visited, true;
        }
        queue := queue + [QueueEntry(next, entry.depth + 1)];
      }
      assert list[..i] == list;
      FinishExpanding(arcs, origin, limit, queue, cursor, visited, EdgeHeads(g, d, keep, list));
    }

    /** Bounded breadth-first traversal over the edges the filter keeps. */
    method Traverse(origin: nat, d: Direction, bounds: Bounds, limits: Limits,
                    keep: EdgeTypeFilter)
      returns (status: Outcome, out: TraversalResult)
      requires Indexed() && limits.Positive()
      ensures origin == 0 ==> status == MalformedRequest && out == EMPTY_TRAVERSAL
      ensures origin != 0 && origin !in nodes ==> status == NodeNotFound && out == EMPTY_TRAVERSAL
      ensures origin in nodes && origin != 0 ==>
                var arcs, depth := FilteredArcs(View(), d, keep), Effective(bounds.maxDepth, limits.maxDepth);
                && (status == Ok <==>
                      && |Ball(arcs, origin, depth)| <= Effective(bounds.maxResults, limits.maxResults)
                      && |Ball(arcs, origin, depth)| <= Effective(bounds.maxVisited, limits.maxVisited))
                && (status == Ok ==> ExactTraversal(View(), arcs, origin, depth, out))
                && (status != Ok ==> status == ResourceLimit && out == EMPTY_TRAVERSAL.(truncated := true))
    {
      hide *;
      if origin == 0 {
        return MalformedRequest, EMPTY_TRAVERSAL;
      }
      if origin !in nodes {
        return NodeNotFound, EMPTY_TRAVERSAL;
      }
      var maxDepth := Effective(bounds.maxDepth, limits.maxDepth);
      var maxResults := Effective(bounds.maxResults, limits.maxResults);
      var maxVisited := Effective(bounds.maxVisited, limits.maxVisited);
      EffectivePositive(bounds, limits);
      ghost var arcs := FilteredArcs(View(), d, keep);
      var queue, visited, cursor := [QueueEntry(origin, 0)], {origin}, 0;
      StartExploring(arcs, origin, maxDepth);
      while cursor < |queue|
        invariant Exploring(arcs, origin, maxDepth, queue, cursor, visited)
        invariant cursor <= |queue| && visited <= nodes.Keys
        invariant |queue| <= maxResults && |visited| <= maxVisited
        decreases |nodes| - cursor
      {
        QueueFits(arcs, origin, maxDepth, queue, cursor, visited, nodes.Keys);
        if queue[cursor].depth >= maxDepth {
          SkipEntry(arcs, origin, maxDepth, queue, cursor, visited);
        } else {
          var exceeded;
          queue, visited, exceeded := ReadEntry(d, keep, queue, cursor, visited, maxResults,
                                                maxVisited, origin, maxDepth);
          if exceeded {
            return ResourceLimit, EMPTY_TRAVERSAL.(truncated := true);
          }
          CursorFits(arcs, origin, maxDepth, queue, cursor + 1, visited);
        }
        cursor := cursor + 1;
      }
      DrainedIsBall(arcs, origin, maxDepth, queue, visited);
      Shape();
      ViewIs();
      AssembleResult(View(), arcs, origin, maxDepth, queue, visited);
      var entries := Entries(nodes, SortedPairs(Keys(queue)));
      var induced := Induced(edges, visited, Sorted(edges.Keys));
      return Ok, TraversalResult(entries, induced, false, DeepestOf(entries));
    }

    lemma Shape()
      requires Indexed()
      ensures WellFormed(View())
    {
    }

    lemma Disagreement(e: nat)
      requires e in edges && !GoodEdge(View(), derivations, edges[e])
      ensures !(Indexed() && StructureOk(View(), derivations))
    {
    }

    /** What validate_structure takes for granted: maps keyed by identity, adjacency lists that
        ascend and miss no edge, derivation entries that lead to their edges. */
    ghost predicate Exhaustive()
      reads this
    {
      && KeyedById(View()) && Lists(View(), Outgoing, outgoing) && Lists(View(), Incoming, incoming)
      && (forall k :: k in derivations ==> derivations[k] in edges && edges[derivations[k]].derivation == k)
    }

    lemma IndexedIsListed()
      requires Indexed()
      ensures Exhaustive()
    {
      IndexesIsLists(View(), Outgoing, outgoing);
      IndexesIsLists(View(), Incoming, incoming);
    }

    lemma ListedIsIndexed()
      requires Exhaustive() && (forall e :: e in edges ==> GoodEdge(View(), derivations, edges[e]))
      ensures WellFormed(View())
      ensures ListsOnly(View(), Outgoing, outgoing) && ListsOnly(View(), Incoming, incoming) <==> Indexed()
      ensures Indexed() ==> (StructureOk(View(), derivations) <==> Acyclic(EdgeArcs(View())))
    {
      hide Enumerates, EdgesAt;
      ListsIsIndexes(View(), Outgoing, outgoing);
      ListsIsIndexes(View(), Incoming, incoming);
      assert forall e :: e in edges ==> edges[e].derivation in derivations;
    }

    /** One adjacency index against the edge set. */
    method CheckLists(d: Direction, adjacency: map<nat, seq<nat>>) returns (ok: bool)
      ensures ok <==> ListsOnly(View(), d, adjacency)
    {
      var ns := Sorted(adjacency.Keys);
      SortedAll(adjacency.Keys);
      var i := 0;
      while i < |ns|
        invariant 0 <= i <= |ns|
        invariant forall j :: 0 <= j < i ==> ListOnly(View(), d, ns[j], adjacency[ns[j]])
      {
        var n := ns[i];
        var good := CheckList(d, n, adjacency[n]);
        if n !in nodes || !good {
          return false;
        }
        i := i + 1;
      }
      forall n | n in adjacency ensures ListOnly(View(), d, n, adjacency[n]) {
        assert n in ns;
      }
      return true;
    }

    method CheckList(d: Direction, n: nat, list: seq<nat>) returns (ok: bool)
      ensures n in nodes ==> (ok <==> ListOnly(View(), d, n, list))
    {
      var i := 0;
      while i < |list|
        invariant 0 <= i <= |list|
        invariant forall j :: 0 <= j < i ==> list[j] in edges && Tail(edges[list[j]], d) == n
      {
        if list[i] !in edges || Tail(edges[list[i]], d) != n {
          return false;
        }
        i := i + 1;
      }
      return true;
    }

    /** Accepts exactly the graphs whose endpoints exist, which are of one lineage throughout, whose
        derivation and adjacency indexes agree with the edge set, and which have no cycle. */
    method ValidateStructure() returns (r: Outcome)
      requires Exhaustive()
      ensures r == Ok <==> Indexed() && StructureOk(View(), derivations)
    {
      hide *;
      var ids := Sorted(edges.Keys);
      EdgeKeys(ids);
      var i := 0;
      while i < |ids|
        invariant 0 <= i <= |ids|
        invariant forall j :: 0 <= j < i ==> GoodEdge(View(), derivations, edges[ids[j]])
      {
        var edge := edges[ids[i]];
        GoodEdgeIs(View(), derivations, edge);
        ViewIs();
        if edge.from !in nodes || edge.to !in nodes {
          Disagreement(ids[i]);
          return MissingParent;
        }
        if nodes[edge.from].core.lineage != edge.lineage || nodes[edge.to].core.lineage != edge.lineage {
          Disagreement(ids[i]);
          return InvalidDerivation;
        }
        if edge.derivation !in derivations || derivations[edge.derivation] != edge.id {
          Disagreement(ids[i]);
          return Conflict;
        }
        i := i + 1;
      }
      AllGood(ids);
      ListedIsIndexed();
      var out := CheckLists(Outgoing, outgoing);
      if !out {
        return Conflict;
      }
      var in_ := CheckLists(Incoming, incoming);
      if !in_ {
        return Conflict;
      }
      var order := TopologicalOrder();
      return if order.None? then CycleDetected else Ok;
    }

    lemma EdgeKeys(ids: seq<nat>)
      requires ids == Sorted(edges.Keys)
      ensures forall i :: 0 <= i < |ids| ==> ids[i] in edges
      ensures Elements(ids) == edges.Keys
    {
      SortedAll(edges.Keys);
      SortedMembers(edges.Keys);
    }

    lemma AllGood(ids: seq<nat>)
      requires Elements(ids) == edges.Keys && forall i :: 0 <= i < |ids| ==> ids[i] in edges
      requires forall i :: 0 <= i < |ids| ==> GoodEdge(View(), derivations, edges[ids[i]])
      ensures forall e :: e in edges ==> GoodEdge(View(), derivations, edges[e])
    {
      forall e | e in edges ensures GoodEdge(View(), derivations, edges[e]) {
        assert e in Elements(ids);
      }
    }
  }
}
