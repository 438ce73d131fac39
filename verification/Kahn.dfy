// Kahn's algorithm on in-degree counters, step by step: the counters count the edges not yet
// consumed, so the ready set is always the set of available nodes.
module Kahn {
  import opened Types
  import opened Digraph
  import opened Ordering
  import opened GraphModel

  ghost function PendingInto(g: Graph, pending: set<nat>, n: nat): set<nat> {
    set e | e in pending && e in g.edges && g.edges[e].to == n
  }

  /** Each counter is the number of pending edges into its node; parallel edges count apart. */
  ghost predicate Counts(g: Graph, pending: set<nat>, inDegree: map<nat, nat>) {
    && inDegree.Keys == g.nodes.Keys
    && forall n :: n in inDegree ==> inDegree[n] == |PendingInto(g, pending, n)|
  }

  function ReadyNodes(placed: set<nat>, inDegree: map<nat, nat>): set<nat> {
    set n | n in inDegree && n !in placed && inDegree[n] == 0
  }

  /** The edges whose tail has not been placed. */
  ghost function Unconsumed(g: Graph, placed: set<nat>): set<nat> {
    set e | e in g.edges && g.edges[e].from !in placed
  }

  /** Between two edge visits. */
  ghost predicate Draining(g: Graph, placed: set<nat>, pending: set<nat>, inDegree: map<nat, nat>,
                           ready: set<nat>) {
    && pending <= g.edges.Keys
    && Counts(g, pending, inDegree)
    && ready == ReadyNodes(placed, inDegree)
    && forall n :: n in placed ==> PendingInto(g, pending, n) == {}
  }

  /** A prefix of the answer. */
  ghost predicate CountersSettled(g: Graph, order: seq<nat>) {
    && Distinct(order) && Elements(order) <= g.nodes.Keys
    && SmallestFirst(g.nodes.Keys, EdgeArcs(g), order)
  }

  /** Between two placements. */
  ghost predicate Placing(g: Graph, order: seq<nat>, inDegree: map<nat, nat>, ready: set<nat>) {
    && CountersSettled(g, order)
    && Draining(g, Elements(order), Unconsumed(g, Elements(order)), inDegree, ready)
  }

  lemma ReadyIsAvailable(g: Graph, placed: set<nat>, inDegree: map<nat, nat>)
    requires WellFormed(g) && Counts(g, Unconsumed(g, placed), inDegree)
    ensures ReadyNodes(placed, inDegree) == Available(g.nodes.Keys, EdgeArcs(g), placed)
  {
    var pending := Unconsumed(g, placed);
    forall n | n in g.nodes && n !in placed
      ensures inDegree[n] == 0 <==> forall m :: (m, n) in EdgeArcs(g) ==> m in placed
    {
      if inDegree[n] == 0 {
        assert PendingInto(g, pending, n) == {};
        forall m | (m, n) in EdgeArcs(g) ensures m in placed {
          var e :| e in g.edges && (g.edges[e].from, g.edges[e].to) == (m, n);
          assert e !in PendingInto(g, pending, n);
        }
      } else {
        var e :| e in PendingInto(g, pending, n);
        assert (g.edges[e].from, n) in EdgeArcs(g);
      }
    }
  }

  lemma PendingWithout(g: Graph, pending: set<nat>, e: nat, n: nat)
    requires e in pending && e in g.edges
    ensures
      var before, after := PendingInto(g, pending, n), PendingInto(g, pending - {e}, n);
      && after <= before
      && |before| == |after| + (if g.edges[e].to == n then 1 else 0)
  {
    var before, after := PendingInto(g, pending, n), PendingInto(g, pending - {e}, n);
    if g.edges[e].to == n {
      assert before == after + {e} && e !in after;
    } else {
      assert before == after;
    }
  }

  lemma ConsumeEdge(g: Graph, placed: set<nat>, pending: set<nat>, inDegree: map<nat, nat>,
                    ready: set<nat>, e: nat)
    requires WellFormed(g) && Draining(g, placed, pending, inDegree, ready) && e in pending
    ensures g.edges[e].to in inDegree && inDegree[g.edges[e].to] > 0
    ensures
      var to := g.edges[e].to;
      Draining(g, placed, pending - {e}, inDegree[to := inDegree[to] - 1],
               if inDegree[to] == 1 then ready + {to} else ready)
  {
    hide PendingInto;
    var to := g.edges[e].to;
    forall n
      ensures
        var before, after := PendingInto(g, pending, n), PendingInto(g, pending - {e}, n);
        after <= before && |before| == |after| + (if to == n then 1 else 0)
    {
      PendingWithout(g, pending, e, n);
    }
  }

  lemma StartPlacing(g: Graph, inDegree: map<nat, nat>)
    requires WellFormed(g) && inDegree.Keys == g.nodes.Keys
    requires forall n :: n in inDegree ==> inDegree[n] == |EdgesAt(g, Incoming, n)|
    ensures Placing(g, [], inDegree, ReadyNodes({}, inDegree))
  {
    assert Elements([]) == {} && Unconsumed(g, {}) == g.edges.Keys;
    forall n | n in inDegree ensures PendingInto(g, g.edges.Keys, n) == EdgesAt(g, Incoming, n) {
    }
  }

  lemma SettleNext(g: Graph, order: seq<nat>, n: nat)
    requires CountersSettled(g, order)
    requires IsLeast(Available(g.nodes.Keys, EdgeArcs(g), Elements(order)), n)
    ensures CountersSettled(g, order + [n]) && |order| < |g.nodes|
    ensures Elements(order + [n]) == Elements(order) + {n}
  {
    var next := order + [n];
    assert Elements(next) == Elements(order) + {n};
    assert n !in Elements(order);
    forall i | 0 <= i < |next|
      ensures IsLeast(Available(g.nodes.Keys, EdgeArcs(g), Elements(next[..i])), next[i])
    {
      assert next[..i] == order[..i];
    }
    DistinctSize(next);
    SubsetSize(Elements(next), g.nodes.Keys);
  }

  /** Taking the least ready node starts draining its outgoing edges. */
  lemma PlaceNode(g: Graph, order: seq<nat>, inDegree: map<nat, nat>, ready: set<nat>, n: nat)
    requires WellFormed(g) && Placing(g, order, inDegree, ready) && IsLeast(ready, n)
    ensures CountersSettled(g, order + [n]) && n in g.nodes && |order| < |g.nodes|
    ensures Draining(g, Elements(order + [n]), Unconsumed(g, Elements(order)), inDegree, ready - {n})
    ensures EdgesAt(g, Outgoing, n) <= Unconsumed(g, Elements(order))
    ensures Unconsumed(g, Elements(order)) - EdgesAt(g, Outgoing, n) ==
            Unconsumed(g, Elements(order + [n]))
  {
    hide CountersSettled, Available, Elements, EdgeArcs, PendingInto;
    var placed := Elements(order);
    ReadyIsAvailable(g, placed, inDegree);
    SettleNext(g, order, n);
    assert n !in placed && inDegree[n] == 0;
    PlacedTail(g, placed, n);
  }

  lemma PlacedTail(g: Graph, placed: set<nat>, n: nat)
    requires n !in placed
    ensures EdgesAt(g, Outgoing, n) <= Unconsumed(g, placed)
    ensures Unconsumed(g, placed) - EdgesAt(g, Outgoing, n) == Unconsumed(g, placed + {n})
  {
  }

  lemma NextPlacing(g: Graph, order: seq<nat>, inDegree: map<nat, nat>, ready: set<nat>)
    requires CountersSettled(g, order)
    requires Draining(g, Elements(order), Unconsumed(g, Elements(order)), inDegree, ready)
    ensures Placing(g, order, inDegree, ready)
  {
  }

  lemma NothingConsumed(g: Graph, placed: set<nat>, pending: set<nat>, inDegree: map<nat, nat>,
                        ready: set<nat>, list: seq<nat>)
    requires Draining(g, placed, pending, inDegree, ready)
    ensures Draining(g, placed, pending - Elements(list[..0]), inDegree, ready)
  {
    assert pending - Elements(list[..0]) == pending;
  }

  /** Consuming the next listed edge. */
  lemma ConsumeListed(g: Graph, placed: set<nat>, pending: set<nat>, inDegree: map<nat, nat>,
                      ready: set<nat>, list: seq<nat>, i: nat)
    requires WellFormed(g) && i < |list| && Ascending(list) && Elements(list) <= pending
    requires Draining(g, placed, pending - Elements(list[..i]), inDegree, ready)
    ensures list[i] in g.edges
    ensures g.edges[list[i]].to in inDegree && inDegree[g.edges[list[i]].to] > 0
    ensures
      var to := g.edges[list[i]].to;
      Draining(g, placed, pending - Elements(list[..i + 1]), inDegree[to := inDegree[to] - 1],
               if inDegree[to] == 1 then ready + {to} else ready)
  {
    hide Draining, WellFormed;
    assert list[i] in Elements(list) && list[i] !in list[..i];
    assert list[i] in pending - Elements(list[..i]);
    assert list[..i + 1] == list[..i] + [list[i]];
    assert pending - Elements(list[..i + 1]) == pending - Elements(list[..i]) - {list[i]};
    PendingIsEdge(g, placed, pending - Elements(list[..i]), inDegree, ready, list[i]);
    ConsumeEdge(g, placed, pending - Elements(list[..i]), inDegree, ready, list[i]);
  }

  lemma PendingIsEdge(g: Graph, placed: set<nat>, pending: set<nat>, inDegree: map<nat, nat>,
                      ready: set<nat>, e: nat)
    requires Draining(g, placed, pending, inDegree, ready) && e in pending
    ensures e in g.edges
  {
  }

  lemma SmallestFirstIsForward(nodes: set<nat>, arcs: Arcs, order: seq<nat>)
    requires SmallestFirst(nodes, arcs, order) && Distinct(order) && Elements(order) == nodes
    ensures IsTopological(nodes, arcs, order)
  {
    forall i, j | 0 <= i < |order| && 0 <= j < |order| && (order[i], order[j]) in arcs
      ensures i < j
    {
      assert IsLeast(Available(nodes, arcs, Elements(order[..j])), order[j]);
      assert order[i] in Elements(order[..j]);
      var k :| 0 <= k < j && order[..j][k] == order[i];
    }
    forall n | n in nodes ensures n in order {
      assert n in Elements(order);
    }
    forall n | n in order ensures n in nodes {
      assert n in Elements(order);
    }
  }

  /** With nothing available and a node left over, the left-over nodes precede each other. */
  lemma StuckIsCyclic(nodes: set<nat>, arcs: Arcs, placed: set<nat>)
    requires Within(nodes, arcs) && Available(nodes, arcs, placed) == {} && nodes - placed != {}
    ensures !Acyclic(arcs)
  {
    var rest := nodes - placed;
    forall v | v in rest ensures exists u :: u in rest && (u, v) in arcs {
      assert v !in Available(nodes, arcs, placed);
      var m :| (m, v) in arcs && m !in placed;
      assert m in rest;
    }
    var n :| n in rest;
    RootlessSetIsCyclic(arcs, rest, n);
  }

  lemma ArcsWithin(g: Graph)
    requires WellFormed(g)
    ensures Within(g.nodes.Keys, EdgeArcs(g))
  {
  }

  lemma FullOrShort(nodes: set<nat>, order: seq<nat>)
    requires Distinct(order) && Elements(order) <= nodes
    ensures |order| == |nodes| ==> Elements(order) == nodes
    ensures |order| != |nodes| ==> nodes - Elements(order) != {}
  {
    DistinctSize(order);
    if n :| n in nodes && n !in Elements(order) {
      SmallerSet(Elements(order), nodes, n);
      assert n in nodes - Elements(order);
    } else {
      assert Elements(order) == nodes;
    }
  }

  /** With nothing ready, a full order proves the graph acyclic and a short one proves a cycle. */
  lemma FinishPlacing(g: Graph, order: seq<nat>, inDegree: map<nat, nat>)
    requires WellFormed(g) && Placing(g, order, inDegree, {})
    ensures |order| == |g.nodes| <==> Acyclic(EdgeArcs(g))
    ensures |order| == |g.nodes| ==> IsTopological(g.nodes.Keys, EdgeArcs(g), order)
    ensures SmallestFirst(g.nodes.Keys, EdgeArcs(g), order)
  {
    hide Acyclic, SmallestFirst, IsTopological, EdgeArcs, Within, Available, ReadyNodes, Counts,
      Distinct, Elements, Unconsumed;
    FullOrShort(g.nodes.Keys, order);
    ReadyIsAvailable(g, Elements(order), inDegree);
    ArcsWithin(g);
    if |order| == |g.nodes| {
      SmallestFirstIsForward(g.nodes.Keys, EdgeArcs(g), order);
      OrderedIsAcyclic(g.nodes.Keys, EdgeArcs(g), order);
    } else {
      StuckIsCyclic(g.nodes.Keys, EdgeArcs(g), Elements(order));
    }
  }
}
