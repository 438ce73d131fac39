// Bounded breadth-first search, step by step: the queue lists the visited nodes with their
// exact distances, and the layers before the one being read are complete.
module Bfs {
  import opened Types
  import opened Digraph
  import opened Ordering
  import opened GraphModel

  datatype QueueEntry = QueueEntry(node: nat, depth: nat)

  ghost function QueueNodes(queue: seq<QueueEntry>): set<nat> {
    set i | 0 <= i < |queue| :: queue[i].node
  }

  /** Every visited node is queued once, in order of distance, with its exact distance. */
  ghost predicate Queued(arcs: Arcs, origin: nat, limit: nat, queue: seq<QueueEntry>,
                         visited: set<nat>) {
    && |queue| > 0 && queue[0] == QueueEntry(origin, 0)
    && (forall i :: 0 <= i < |queue| ==>
          queue[i].depth <= limit && AtDistance(arcs, origin, queue[i].node, queue[i].depth))
    && (forall i, j :: 0 <= i < j < |queue| ==> queue[i].depth <= queue[j].depth)
    && QueueNodes(queue) == visited && |visited| == |queue|
  }

  /** Between two queue entries: what was read before the cursor has all its heads visited. */
  ghost predicate Exploring(arcs: Arcs, origin: nat, limit: nat, queue: seq<QueueEntry>,
                            cursor: nat, visited: set<nat>) {
    && Queued(arcs, origin, limit, queue, visited)
    && cursor <= |queue|
    && (forall i :: 0 <= i < cursor && queue[i].depth < limit ==>
          Heads(arcs, {queue[i].node}) <= visited)
    && (cursor < |queue| ==>
          forall i :: 0 <= i < |queue| ==> queue[i].depth <= queue[cursor].depth + 1)
  }

  /** While reading the entry at the cursor: these of its heads have been visited. */
  ghost predicate Expanding(arcs: Arcs, origin: nat, limit: nat, queue: seq<QueueEntry>,
                            cursor: nat, visited: set<nat>, heads: set<nat>) {
    && cursor < |queue| && queue[cursor].depth < limit
    && Exploring(arcs, origin, limit, queue, cursor, visited)
    && Ball(arcs, origin, queue[cursor].depth) <= visited
    && heads <= visited
  }

  lemma StartExploring(arcs: Arcs, origin: nat, limit: nat)
    ensures Exploring(arcs, origin, limit, [QueueEntry(origin, 0)], 0, {origin})
  {
    var queue := [QueueEntry(origin, 0)];
    assert queue[0].node in QueueNodes(queue);
  }

  lemma DistanceInBall(arcs: Arcs, origin: nat, n: nat, d: nat, k: nat)
    requires AtDistance(arcs, origin, n, d) && n in Ball(arcs, origin, k)
    ensures d <= k
  {
    if d > k {
      BallGrows(arcs, origin, k, d - 1);
    }
  }

  lemma HeadVisited(arcs: Arcs, origin: nat, limit: nat, queue: seq<QueueEntry>, cursor: nat,
                    visited: set<nat>, k: nat, a: (nat, nat))
    requires Exploring(arcs, origin, limit, queue, cursor, visited) && 0 < k <= limit
    requires cursor < |queue| ==> k <= queue[cursor].depth
    requires a in arcs && a.0 in Ball(arcs, origin, k - 1) && a.0 in visited
    ensures a.1 in visited
  {
    hide AtDistance, Ball;
    assert a.0 in QueueNodes(queue);
    var i :| 0 <= i < |queue| && queue[i].node == a.0;
    DistanceInBall(arcs, origin, a.0, queue[i].depth, k - 1);
    assert i < cursor;
    assert a.1 in Heads(arcs, {queue[i].node});
  }

  // A layer is complete once every entry of the layers before it has been read.
  lemma {:induction false} LayersVisited(arcs: Arcs, origin: nat, limit: nat,
                                         queue: seq<QueueEntry>, cursor: nat, visited: set<nat>,
                                         k: nat)
    requires Exploring(arcs, origin, limit, queue, cursor, visited) && k <= limit
    requires cursor < |queue| ==> k <= queue[cursor].depth
    ensures Ball(arcs, origin, k) <= visited
  {
    if k == 0 {
      assert queue[0].node in QueueNodes(queue);
    } else {
      LayersVisited(arcs, origin, limit, queue, cursor, visited, k - 1);
      forall w | w in Heads(arcs, Ball(arcs, origin, k - 1)) ensures w in visited {
        var a :| a in arcs && a.0 in Ball(arcs, origin, k - 1) && a.1 == w;
        HeadVisited(arcs, origin, limit, queue, cursor, visited, k, a);
      }
    }
  }

  lemma StartExpanding(arcs: Arcs, origin: nat, limit: nat, queue: seq<QueueEntry>, cursor: nat,
                       visited: set<nat>)
    requires Exploring(arcs, origin, limit, queue, cursor, visited)
    requires cursor < |queue| && queue[cursor].depth < limit
    ensures Expanding(arcs, origin, limit, queue, cursor, visited, {})
  {
    LayersVisited(arcs, origin, limit, queue, cursor, visited, queue[cursor].depth);
  }

  lemma QueueNodesAppend(queue: seq<QueueEntry>, e: QueueEntry)
    ensures QueueNodes(queue + [e]) == QueueNodes(queue) + {e.node}
  {
    var longer := queue + [e];
    assert longer[|queue|].node in QueueNodes(longer);
    forall n | n in QueueNodes(queue) ensures n in QueueNodes(longer) {
      var i :| 0 <= i < |queue| && queue[i].node == n;
      assert longer[i].node == n;
    }
  }

  lemma QueuedAppend(arcs: Arcs, origin: nat, limit: nat, queue: seq<QueueEntry>,
                     visited: set<nat>, w: nat, d: nat)
    requires Queued(arcs, origin, limit, queue, visited) && w !in visited && d <= limit
    requires AtDistance(arcs, origin, w, d)
    requires forall i :: 0 <= i < |queue| ==> queue[i].depth <= d
    ensures Queued(arcs, origin, limit, queue + [QueueEntry(w, d)], visited + {w})
  {
    hide AtDistance, QueueNodes;
    QueueNodesAppend(queue, QueueEntry(w, d));
  }

  lemma HeadDistance(arcs: Arcs, origin: nat, n: nat, d: nat, visited: set<nat>, w: nat)
    requires AtDistance(arcs, origin, n, d) && Ball(arcs, origin, d) <= visited
    requires w in Heads(arcs, {n}) && w !in visited
    ensures AtDistance(arcs, origin, w, d + 1)
  {
    assert w in Heads(arcs, Ball(arcs, origin, d));
  }

  lemma EnqueueHead(arcs: Arcs, origin: nat, limit: nat, queue: seq<QueueEntry>, cursor: nat,
                    visited: set<nat>, w: nat)
    requires cursor < |queue| && queue[cursor].depth < limit && w !in visited
    requires Exploring(arcs, origin, limit, queue, cursor, visited)
    requires Ball(arcs, origin, queue[cursor].depth) <= visited
    requires w in Heads(arcs, {queue[cursor].node})
    ensures Exploring(arcs, origin, limit, queue + [QueueEntry(w, queue[cursor].depth + 1)],
                      cursor, visited + {w})
  {
    hide AtDistance, Ball, Heads, QueueNodes;
    HeadDistance(arcs, origin, queue[cursor].node, queue[cursor].depth, visited, w);
    QueuedAppend(arcs, origin, limit, queue, visited, w, queue[cursor].depth + 1);
    hide Queued;
  }

  /** Reading one more head of the entry at the cursor. */
  lemma ExpandHead(arcs: Arcs, origin: nat, limit: nat, queue: seq<QueueEntry>, cursor: nat,
                   visited: set<nat>, heads: set<nat>, w: nat)
    requires Expanding(arcs, origin, limit, queue, cursor, visited, heads)
    requires w in Heads(arcs, {queue[cursor].node})
    ensures w in visited ==>
              Expanding(arcs, origin, limit, queue, cursor, visited, heads + {w})
    ensures w !in visited ==>
              Expanding(arcs, origin, limit, queue + [QueueEntry(w, queue[cursor].depth + 1)],
                        cursor, visited + {w}, heads + {w})
  {
    hide Exploring, Ball, Heads;
    if w !in visited {
      EnqueueHead(arcs, origin, limit, queue, cursor, visited, w);
    }
  }

  lemma FinishExpanding(arcs: Arcs, origin: nat, limit: nat, queue: seq<QueueEntry>, cursor: nat,
                        visited: set<nat>, heads: set<nat>)
    requires Expanding(arcs, origin, limit, queue, cursor, visited, heads)
    requires heads == Heads(arcs, {queue[cursor].node})
    ensures Exploring(arcs, origin, limit, queue, cursor + 1, visited)
  {
  }

  lemma SkipEntry(arcs: Arcs, origin: nat, limit: nat, queue: seq<QueueEntry>, cursor: nat,
                  visited: set<nat>)
    requires Exploring(arcs, origin, limit, queue, cursor, visited)
    requires cursor < |queue| && queue[cursor].depth >= limit
    ensures Exploring(arcs, origin, limit, queue, cursor + 1, visited)
  {
  }

  /** Visited nodes lie within the bound, so exceeding a cap proves the ball exceeds it. */
  lemma VisitedInBall(arcs: Arcs, origin: nat, limit: nat, queue: seq<QueueEntry>, cursor: nat,
                      visited: set<nat>)
    requires Exploring(arcs, origin, limit, queue, cursor, visited)
    ensures visited <= Ball(arcs, origin, limit) && |visited| <= |Ball(arcs, origin, limit)|
    ensures |visited| == |queue|
  {
    forall n | n in visited ensures n in Ball(arcs, origin, limit) {
      assert n in QueueNodes(queue);
      var i :| 0 <= i < |queue| && queue[i].node == n;
      BallGrows(arcs, origin, queue[i].depth, limit);
    }
    SubsetSize(visited, Ball(arcs, origin, limit));
  }

  /** Reading a fresh head: how the caps relate to the size of the ball. */
  lemma FreshHeadCounts(arcs: Arcs, origin: nat, limit: nat, queue: seq<QueueEntry>, cursor: nat,
                        visited: set<nat>, heads: set<nat>, w: nat)
    requires Expanding(arcs, origin, limit, queue, cursor, visited, heads)
    requires w in Heads(arcs, {queue[cursor].node}) && w !in visited
    ensures |visited| == |queue| && |visited| + 1 <= |Ball(arcs, origin, limit)|
  {
    hide Exploring, Ball, Heads;
    ExpandHead(arcs, origin, limit, queue, cursor, visited, heads, w);
    VisitedInBall(arcs, origin, limit, queue, cursor, visited);
    VisitedInBall(arcs, origin, limit, queue + [QueueEntry(w, queue[cursor].depth + 1)], cursor,
                  visited + {w});
  }

  /** A drained queue holds exactly the nodes within the bound. */
  lemma DrainedIsBall(arcs: Arcs, origin: nat, limit: nat, queue: seq<QueueEntry>,
                      visited: set<nat>)
    requires Exploring(arcs, origin, limit, queue, |queue|, visited)
    ensures visited == Ball(arcs, origin, limit) && |visited| == |queue|
  {
    VisitedInBall(arcs, origin, limit, queue, |queue|, visited);
    LayersVisited(arcs, origin, limit, queue, |queue|, visited, limit);
  }

  lemma QueuedIsVisited(arcs: Arcs, origin: nat, limit: nat, queue: seq<QueueEntry>, cursor: nat,
                        visited: set<nat>)
    requires Exploring(arcs, origin, limit, queue, cursor, visited) && cursor < |queue|
    ensures queue[cursor].node in visited
  {
    assert queue[cursor].node in QueueNodes(queue);
  }

  lemma QueueFits(arcs: Arcs, origin: nat, limit: nat, queue: seq<QueueEntry>, cursor: nat,
                  visited: set<nat>, all: set<nat>)
    requires Exploring(arcs, origin, limit, queue, cursor, visited) && visited <= all
    ensures |queue| <= |all|
  {
    SubsetSize(visited, all);
  }

  lemma CursorFits(arcs: Arcs, origin: nat, limit: nat, queue: seq<QueueEntry>, cursor: nat,
                   visited: set<nat>)
    requires Exploring(arcs, origin, limit, queue, cursor, visited)
    ensures cursor <= |queue|
  {
  }

  // ---------------------------------------------------------------------------------------
  // The result: the queue sorted by (depth, id), and the edges induced among its nodes
  // ---------------------------------------------------------------------------------------

  function Keys(queue: seq<QueueEntry>): set<Pair> {
    set i | 0 <= i < |queue| :: (queue[i].depth, queue[i].node)
  }

  function Entries(nodes: map<nat, Node>, keys: seq<Pair>): (r: seq<TraversalEntry>)
    requires forall i :: 0 <= i < |keys| ==> keys[i].1 in nodes
  {
    if keys == [] then []
    else Entries(nodes, keys[..|keys| - 1]) +
         [TraversalEntry(nodes[keys[|keys| - 1].1], keys[|keys| - 1].0)]
  }

  lemma {:induction false} EntriesAt(nodes: map<nat, Node>, keys: seq<Pair>)
    requires forall i :: 0 <= i < |keys| ==> keys[i].1 in nodes
    ensures |Entries(nodes, keys)| == |keys|
    ensures forall i :: 0 <= i < |keys| ==>
              Entries(nodes, keys)[i] == TraversalEntry(nodes[keys[i].1], keys[i].0)
  {
    if keys != [] {
      EntriesAt(nodes, keys[..|keys| - 1]);
    }
  }

  function DeepestOf(entries: seq<TraversalEntry>): nat {
    if entries == [] then 0
    else
      var rest := DeepestOf(entries[..|entries| - 1]);
      var last := entries[|entries| - 1].depth;
      if last > rest then last else rest
  }

  lemma {:induction false} DeepestIsMax(entries: seq<TraversalEntry>)
    requires entries != []
    ensures GreatestDepth(entries, DeepestOf(entries))
  {
    var last := |entries| - 1;
    if last == 0 {
      assert entries[0].depth == DeepestOf(entries);
    } else {
      DeepestIsMax(entries[..last]);
      var i :| 0 <= i < last && entries[..last][i].depth == DeepestOf(entries[..last]);
      var witness_ := if entries[last].depth > DeepestOf(entries[..last]) then last else i;
      assert entries[witness_].depth == DeepestOf(entries);
    }
  }

  /** The edges whose two ends are in frame, in the order of the given identities. */
  function Induced(edges: map<nat, Edge>, frame: set<nat>, ids: seq<nat>): (r: seq<Edge>)
    requires forall i :: 0 <= i < |ids| ==> ids[i] in edges
  {
    if ids == [] then []
    else
      var rest := Induced(edges, frame, ids[..|ids| - 1]);
      var e := edges[ids[|ids| - 1]];
      if e.from in frame && e.to in frame then rest + [e] else rest
  }

  lemma InducedStep(edges: map<nat, Edge>, ids: set<nat>, frame: set<nat>, r: seq<Edge>, last: nat)
    requires InducedEdges(edges, ids, frame, r) && last in edges && edges[last].id == last
    requires forall e :: e in ids ==> e < last
    ensures
      var e := edges[last];
      InducedEdges(edges, ids + {last}, frame,
                   if e.from in frame && e.to in frame then r + [e] else r)
  {
    var more := r + [edges[last]];
    forall e | e in ids && e in edges && edges[e].from in frame && edges[e].to in frame
      ensures exists i :: 0 <= i < |more| && more[i].id == e
    {
      var i :| 0 <= i < |r| && r[i].id == e;
      assert more[i].id == e;
    }
    assert more[|r|].id == last;
  }

  lemma {:induction false} InducedExact(edges: map<nat, Edge>, frame: set<nat>, ids: seq<nat>)
    requires forall i :: 0 <= i < |ids| ==> ids[i] in edges && edges[ids[i]].id == ids[i]
    requires Ascending(ids)
    ensures InducedEdges(edges, Elements(ids), frame, Induced(edges, frame, ids))
  {
    hide InducedEdges, Elements;
    if ids == [] {
      InducedNothing(edges, frame);
    } else {
      var front, last := ids[..|ids| - 1], ids[|ids| - 1];
      InducedExact(edges, frame, front);
      PrefixBelowLast(ids);
      InducedStep(edges, Elements(front), frame, Induced(edges, frame, front), last);
    }
  }

  lemma InducedNothing(edges: map<nat, Edge>, frame: set<nat>)
    ensures InducedEdges(edges, Elements([]), frame, [])
  {
  }

  lemma PrefixBelowLast(ids: seq<nat>)
    requires ids != [] && Ascending(ids)
    ensures
      var front, last := ids[..|ids| - 1], ids[|ids| - 1];
      Elements(ids) == Elements(front) + {last} && forall e :: e in Elements(front) ==> e < last
  {
    assert ids == ids[..|ids| - 1] + [ids[|ids| - 1]];
  }

  lemma KeysAreQueue(arcs: Arcs, origin: nat, limit: nat, queue: seq<QueueEntry>,
                     visited: set<nat>, k: Pair)
    requires Queued(arcs, origin, limit, queue, visited) && k in Keys(queue)
    ensures k.1 in visited && k.0 <= limit && AtDistance(arcs, origin, k.1, k.0)
  {
    hide AtDistance;
    var j :| 0 <= j < |queue| && (queue[j].depth, queue[j].node) == k;
    assert queue[j].node in QueueNodes(queue);
  }

  lemma QueueInKeys(arcs: Arcs, origin: nat, limit: nat, queue: seq<QueueEntry>,
                    visited: set<nat>, n: nat)
    requires Queued(arcs, origin, limit, queue, visited) && n in visited
    ensures exists d :: (d, n) in Keys(queue)
  {
    hide AtDistance;
    assert n in QueueNodes(queue);
    var j :| 0 <= j < |queue| && queue[j].node == n;
    assert (queue[j].depth, queue[j].node) in Keys(queue);
  }

  lemma AssembleNodes(g: Graph, arcs: Arcs, origin: nat, limit: nat, queue: seq<QueueEntry>,
                      visited: set<nat>, keys: seq<Pair>)
    requires WellFormed(g) && Queued(arcs, origin, limit, queue, visited)
    requires visited == Ball(arcs, origin, limit)
    requires visited <= g.nodes.Keys && keys == SortedPairs(Keys(queue))
    ensures forall i :: 0 <= i < |keys| ==> keys[i].1 in g.nodes
    ensures Entries(g.nodes, keys) != []
    ensures ExactNodes(g, arcs, origin, limit, Entries(g.nodes, keys))
  {
    hide AtDistance, Queued, Ball, Keys, Before;
    KeysInGraph(g, arcs, origin, limit, queue, visited, keys);
    EntriesAt(g.nodes, keys);
    EntriesCover(g, arcs, origin, limit, queue, visited, keys);
    EntriesOrdered(g, keys);
  }

  lemma KeysInGraph(g: Graph, arcs: Arcs, origin: nat, limit: nat, queue: seq<QueueEntry>,
                    visited: set<nat>, keys: seq<Pair>)
    requires WellFormed(g) && Queued(arcs, origin, limit, queue, visited)
    requires visited <= g.nodes.Keys && keys == SortedPairs(Keys(queue))
    ensures forall i :: 0 <= i < |keys| ==>
              && keys[i].1 in g.nodes && g.nodes[keys[i].1].id == keys[i].1
              && keys[i].0 <= limit && AtDistance(arcs, origin, keys[i].1, keys[i].0)
  {
    hide AtDistance, Queued, Keys, Before;
    forall i | 0 <= i < |keys|
      ensures keys[i].1 in g.nodes && g.nodes[keys[i].1].id == keys[i].1
      ensures keys[i].0 <= limit && AtDistance(arcs, origin, keys[i].1, keys[i].0)
    {
      assert keys[i] in keys;
      KeysAreQueue(arcs, origin, limit, queue, visited, keys[i]);
    }
  }

  lemma EntriesCover(g: Graph, arcs: Arcs, origin: nat, limit: nat, queue: seq<QueueEntry>,
                     visited: set<nat>, keys: seq<Pair>)
    requires Queued(arcs, origin, limit, queue, visited) && keys == SortedPairs(Keys(queue))
    requires forall i :: 0 <= i < |keys| ==> keys[i].1 in g.nodes && g.nodes[keys[i].1].id == keys[i].1
    ensures
      var r := Entries(g.nodes, keys);
      r != [] && forall n :: n in visited ==> exists i :: 0 <= i < |r| && r[i].node.id == n
  {
    hide AtDistance, Queued, Keys, Before;
    EntriesAt(g.nodes, keys);
    var r := Entries(g.nodes, keys);
    forall n | n in visited ensures exists i :: 0 <= i < |r| && r[i].node.id == n {
      QueueInKeys(arcs, origin, limit, queue, visited, n);
      var d :| (d, n) in Keys(queue);
      var i :| 0 <= i < |keys| && keys[i] == (d, n);
      assert r[i].node.id == n;
    }
    QueuedHasOrigin(arcs, origin, limit, queue, visited);
    var i :| 0 <= i < |r| && r[i].node.id == origin;
  }

  lemma EntriesOrdered(g: Graph, keys: seq<Pair>)
    requires AscendingPairs(keys)
    requires forall i :: 0 <= i < |keys| ==> keys[i].1 in g.nodes && g.nodes[keys[i].1].id == keys[i].1
    ensures
      var r := Entries(g.nodes, keys);
      forall i, j :: 0 <= i < j < |r| ==>
        Before((r[i].depth, r[i].node.id), (r[j].depth, r[j].node.id))
  {
    hide Before;
    EntriesAt(g.nodes, keys);
    var r := Entries(g.nodes, keys);
    forall i, j | 0 <= i < j < |r|
      ensures Before((r[i].depth, r[i].node.id), (r[j].depth, r[j].node.id))
    {
      assert (r[i].depth, r[i].node.id) == keys[i] && (r[j].depth, r[j].node.id) == keys[j];
    }
  }

  lemma QueuedHasOrigin(arcs: Arcs, origin: nat, limit: nat, queue: seq<QueueEntry>,
                        visited: set<nat>)
    requires Queued(arcs, origin, limit, queue, visited)
    ensures origin in visited
  {
    assert queue[0].node in QueueNodes(queue);
  }

  lemma SortedEdgeIds(g: Graph)
    requires WellFormed(g)
    ensures
      var ids := Sorted(g.edges.Keys);
      && Ascending(ids) && Elements(ids) == g.edges.Keys
      && (forall i :: 0 <= i < |ids| ==> ids[i] in g.edges && g.edges[ids[i]].id == ids[i])
  {
    hide Sorted, Acyclic;
    SortedMembers(g.edges.Keys);
    SortedAll(g.edges.Keys);
  }

  /** Sorting the drained queue and inducing the edges gives the exact traversal. */
  lemma AssembleResult(g: Graph, arcs: Arcs, origin: nat, limit: nat, queue: seq<QueueEntry>,
                       visited: set<nat>)
    requires WellFormed(g) && Exploring(arcs, origin, limit, queue, |queue|, visited)
    requires visited <= g.nodes.Keys
    ensures
      var keys, ids := SortedPairs(Keys(queue)), Sorted(g.edges.Keys);
      && (forall i :: 0 <= i < |keys| ==> keys[i].1 in g.nodes)
      && (forall i :: 0 <= i < |ids| ==> ids[i] in g.edges)
      && var entries := Entries(g.nodes, keys);
         ExactTraversal(g, arcs, origin, limit,
           TraversalResult(entries, Induced(g.edges, visited, ids), false, DeepestOf(entries)))
  {
    DrainedIsBall(arcs, origin, limit, queue, visited);
    AssembleNodes(g, arcs, origin, limit, queue, visited, SortedPairs(Keys(queue)));
    SortedEdgeIds(g);
    InducedExact(g.edges, visited, Sorted(g.edges.Keys));
    DeepestIsMax(Entries(g.nodes, SortedPairs(Keys(queue))));
    hide Queued, Ball, ExactNodes, InducedEdges, GreatestDepth, WellFormed, Keys, Elements;
  }
}
