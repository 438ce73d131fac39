// Reachability, acyclicity and distance in a finite directed graph given by its arcs.
module Digraph {
  import opened Ordering

  type Arcs = set<(nat, nat)>

  ghost predicate IsPath(arcs: Arcs, p: seq<nat>) {
    |p| > 0 && forall i :: 0 <= i < |p| - 1 ==> (p[i], p[i + 1]) in arcs
  }

  ghost predicate PathBetween(arcs: Arcs, p: seq<nat>, a: nat, b: nat) {
    IsPath(arcs, p) && p[0] == a && p[|p| - 1] == b
  }

  /** Reflexive: every node reaches itself. */
  ghost predicate Reaches(arcs: Arcs, a: nat, b: nat) {
    exists p :: PathBetween(arcs, p, a, b)
  }

  ghost predicate Acyclic(arcs: Arcs) {
    forall u, v :: (u, v) in arcs ==> !Reaches(arcs, v, u)
  }

  ghost predicate ClosedUnder(arcs: Arcs, s: set<nat>) {
    forall u, v :: (u, v) in arcs && u in s ==> v in s
  }

  lemma ReachesSelf(arcs: Arcs, a: nat)
    ensures Reaches(arcs, a, a)
  {
    assert PathBetween(arcs, [a], a, a);
  }

  lemma ReachesArc(arcs: Arcs, a: nat, b: nat)
    requires (a, b) in arcs
    ensures Reaches(arcs, a, b)
  {
    assert PathBetween(arcs, [a, b], a, b);
  }

  lemma ReachesTrans(arcs: Arcs, a: nat, b: nat, c: nat)
    requires Reaches(arcs, a, b) && Reaches(arcs, b, c)
    ensures Reaches(arcs, a, c)
  {
    var p :| PathBetween(arcs, p, a, b);
    var q :| PathBetween(arcs, q, b, c);
    var r := p + q[1..];
    forall i | 0 <= i < |r| - 1 ensures (r[i], r[i + 1]) in arcs {
      if i >= |p| - 1 {
        assert r[i] == q[i - (|p| - 1)] && r[i + 1] == q[i + 1 - (|p| - 1)];
      }
    }
    assert PathBetween(arcs, r, a, c);
  }

  lemma ReachesMonotone(arcs: Arcs, more: Arcs, a: nat, b: nat)
    requires arcs <= more && Reaches(arcs, a, b)
    ensures Reaches(more, a, b)
  {
    var p :| PathBetween(arcs, p, a, b);
    assert PathBetween(more, p, a, b);
  }

  lemma FirstAndLastArc(arcs: Arcs, p: seq<nat>)
    requires IsPath(arcs, p) && |p| > 1
    ensures exists i :: 0 < i < |p| && (p[0], p[i]) in arcs
    ensures exists i :: 0 <= i < |p| - 1 && (p[i], p[|p| - 1]) in arcs
  {
    assert (p[0], p[0 + 1]) in arcs;
    assert (p[|p| - 2], p[|p| - 2 + 1]) in arcs;
  }

  lemma {:induction false} PathStaysInside(arcs: Arcs, s: set<nat>, p: seq<nat>, i: nat)
    requires ClosedUnder(arcs, s) && IsPath(arcs, p) && p[0] in s && i < |p|
    ensures p[i] in s
  {
    if i > 0 {
      PathStaysInside(arcs, s, p, i - 1);
      assert (p[i - 1], p[i - 1 + 1]) in arcs;
    }
  }

  lemma ClosedContainsReached(arcs: Arcs, s: set<nat>, a: nat, b: nat)
    requires ClosedUnder(arcs, s) && a in s && Reaches(arcs, a, b)
    ensures b in s
  {
    var p :| PathBetween(arcs, p, a, b);
    PathStaysInside(arcs, s, p, |p| - 1);
  }

  // A path that may use one extra arc either avoids it or crosses from its tail to its head.
  lemma {:induction false} SplitAtArc(arcs: Arcs, a: nat, b: nat, p: seq<nat>)
    requires IsPath(arcs + {(a, b)}, p)
    ensures
      var x, y := p[0], p[|p| - 1];
      Reaches(arcs, x, y) || (Reaches(arcs, x, a) && Reaches(arcs, b, y))
    decreases |p|
  {
    if |p| == 1 {
      ReachesSelf(arcs, p[0]);
    } else {
      var q := p[..|p| - 1];
      SplitAtArc(arcs, a, b, q);
      var x, y, z := p[0], q[|q| - 1], p[|p| - 1];
      assert (p[|p| - 2], p[|p| - 2 + 1]) in arcs + {(a, b)};
      if (y, z) in arcs {
        ReachesArc(arcs, y, z);
        if Reaches(arcs, x, y) {
          ReachesTrans(arcs, x, y, z);
        } else {
          ReachesTrans(arcs, b, y, z);
        }
      } else {
        ReachesSelf(arcs, b);
      }
    }
  }

  /** An arc keeps a graph acyclic exactly when its tail is not reachable from its head. */
  lemma AddArcAcyclic(arcs: Arcs, a: nat, b: nat)
    requires Acyclic(arcs)
    ensures Acyclic(arcs + {(a, b)}) <==> !Reaches(arcs, b, a)
  {
    var more := arcs + {(a, b)};
    if Reaches(arcs, b, a) {
      ReachesMonotone(arcs, more, b, a);
      assert (a, b) in more;
    } else {
      forall u, v | (u, v) in more ensures !Reaches(more, v, u) {
        if Reaches(more, v, u) {
          var p :| PathBetween(more, p, v, u);
          SplitAtArc(arcs, a, b, p);
          if (u, v) in arcs {
            ReachesArc(arcs, u, v);
            ReachesTrans(arcs, b, u, v);
            ReachesTrans(arcs, b, v, a);
          }
        }
      }
    }
  }

  // ---------------------------------------------------------------------------------------
  // Topological orders
  // ---------------------------------------------------------------------------------------

  predicate Distinct(s: seq<nat>) {
    forall i, j :: 0 <= i < j < |s| ==> s[i] != s[j]
  }

  /** A permutation of the nodes in which every arc points forward. */
  ghost predicate IsTopological(nodes: set<nat>, arcs: Arcs, order: seq<nat>) {
    && Distinct(order)
    && (forall n :: n in nodes <==> n in order)
    && (forall i, j :: 0 <= i < |order| && 0 <= j < |order| && (order[i], order[j]) in arcs
          ==> i < j)
  }

  /** The nodes all of whose predecessors are already placed. */
  ghost function Available(nodes: set<nat>, arcs: Arcs, placed: set<nat>): set<nat> {
    set n | n in nodes && n !in placed && forall m :: (m, n) in arcs ==> m in placed
  }

  function Elements(s: seq<nat>): set<nat> {
    set x | x in s
  }

  /** Smallest available identity first, at every position. */
  ghost predicate SmallestFirst(nodes: set<nat>, arcs: Arcs, order: seq<nat>) {
    forall i :: 0 <= i < |order| ==> IsLeast(Available(nodes, arcs, Elements(order[..i])), order[i])
  }

  ghost predicate Within(nodes: set<nat>, arcs: Arcs) {
    forall u, v :: (u, v) in arcs ==> u in nodes && v in nodes
  }

  lemma {:induction false} PathClimbs(nodes: set<nat>, arcs: Arcs, order: seq<nat>, p: seq<nat>,
                                      i: nat, j: nat)
    requires IsTopological(nodes, arcs, order) && Within(nodes, arcs) && IsPath(arcs, p)
    requires i < |order| && j < |order| && p[0] == order[i] && p[|p| - 1] == order[j]
    ensures i <= j
    decreases |p|
  {
    if |p| > 1 {
      assert (p[0], p[0 + 1]) in arcs;
      assert p[1] in order;
      var k :| 0 <= k < |order| && order[k] == p[1];
      var q := p[1..];
      forall m | 0 <= m < |q| - 1 ensures (q[m], q[m + 1]) in arcs {
        assert (p[m + 1], p[m + 1 + 1]) in arcs;
      }
      PathClimbs(nodes, arcs, order, q, k, j);
    }
  }

  lemma OrderedIsAcyclic(nodes: set<nat>, arcs: Arcs, order: seq<nat>)
    requires IsTopological(nodes, arcs, order) && Within(nodes, arcs)
    ensures Acyclic(arcs)
  {
    forall u, v | (u, v) in arcs ensures !Reaches(arcs, v, u) {
      if Reaches(arcs, v, u) {
        var p :| PathBetween(arcs, p, v, u);
        assert u in order && v in order;
        var i :| 0 <= i < |order| && order[i] == u;
        var j :| 0 <= j < |order| && order[j] == v;
        PathClimbs(nodes, arcs, order, p, j, i);
      }
    }
  }

  ghost function Ancestors(arcs: Arcs, rest: set<nat>, n: nat): set<nat> {
    set m | m in rest && Reaches(arcs, m, n)
  }

  /** In an acyclic graph no non-empty set of nodes can have all its members preceded inside it. */
  lemma {:induction false} RootlessSetIsCyclic(arcs: Arcs, rest: set<nat>, n: nat)
    requires n in rest
    requires forall v :: v in rest ==> exists u :: u in rest && (u, v) in arcs
    ensures !Acyclic(arcs)
    decreases |Ancestors(arcs, rest, n)|
  {
    if Acyclic(arcs) {
      var m :| m in rest && (m, n) in arcs;
      ReachesSelf(arcs, n);
      assert n in Ancestors(arcs, rest, n) && n !in Ancestors(arcs, rest, m);
      forall k | k in Ancestors(arcs, rest, m) ensures k in Ancestors(arcs, rest, n) {
        ReachesArc(arcs, m, n);
        ReachesTrans(arcs, k, m, n);
      }
      SmallerSet(Ancestors(arcs, rest, m), Ancestors(arcs, rest, n), n);
      RootlessSetIsCyclic(arcs, rest, m);
    }
  }

  lemma SmallerSet(s: set<nat>, t: set<nat>, x: nat)
    requires s <= t && x in t && x !in s
    ensures |s| < |t|
  {
    SubsetSize(s, t - {x});
  }

  lemma {:induction false} SubsetSize<T>(s: set<T>, t: set<T>)
    requires s <= t
    ensures |s| <= |t|
    decreases s
  {
    if s != {} {
      var x :| x in s;
      SubsetSize(s - {x}, t - {x});
    }
  }

  /** The smallest-first order is determined by the node set and the arc set. */
  lemma {:induction false} SmallestFirstIsUnique(nodes: set<nat>, arcs: Arcs, a: seq<nat>,
                                                 b: seq<nat>, k: nat)
    requires SmallestFirst(nodes, arcs, a) && SmallestFirst(nodes, arcs, b)
    requires k <= |a| && k <= |b|
    ensures a[..k] == b[..k]
  {
    if k > 0 {
      SmallestFirstIsUnique(nodes, arcs, a, b, k - 1);
      assert IsLeast(Available(nodes, arcs, Elements(a[..k - 1])), a[k - 1]);
      assert IsLeast(Available(nodes, arcs, Elements(b[..k - 1])), b[k - 1]);
      assert a[..k] == a[..k - 1] + [a[k - 1]] && b[..k] == b[..k - 1] + [b[k - 1]];
    }
  }

  lemma {:induction false} DistinctSize(s: seq<nat>)
    requires Distinct(s)
    ensures |Elements(s)| == |s|
  {
    if s != [] {
      var t := s[..|s| - 1];
      DistinctSize(t);
      assert Elements(s) == Elements(t) + {s[|s| - 1]};
    }
  }

  /** Two runs over the same nodes and arcs give the same order, whatever was inserted first. */
  lemma OrderDependsOnSetsOnly(nodes: set<nat>, arcs: Arcs, a: seq<nat>, b: seq<nat>)
    requires IsTopological(nodes, arcs, a) && SmallestFirst(nodes, arcs, a)
    requires IsTopological(nodes, arcs, b) && SmallestFirst(nodes, arcs, b)
    ensures a == b
  {
    DistinctSize(a);
    DistinctSize(b);
    assert Elements(a) == nodes == Elements(b);
    SmallestFirstIsUnique(nodes, arcs, a, b, |a|);
  }

  // ---------------------------------------------------------------------------------------
  // Distance
  // ---------------------------------------------------------------------------------------

  ghost function Heads(arcs: Arcs, s: set<nat>): set<nat> {
    set a | a in arcs && a.0 in s :: a.1
  }

  /** The nodes at distance at most k from the origin. */
  ghost function Ball(arcs: Arcs, origin: nat, k: nat): set<nat> {
    if k == 0 then {origin} else Ball(arcs, origin, k - 1) + Heads(arcs, Ball(arcs, origin, k - 1))
  }

  ghost predicate AtDistance(arcs: Arcs, origin: nat, n: nat, d: nat) {
    n in Ball(arcs, origin, d) && (d > 0 ==> n !in Ball(arcs, origin, d - 1))
  }

  lemma {:induction false} BallGrows(arcs: Arcs, origin: nat, j: nat, k: nat)
    requires j <= k
    ensures Ball(arcs, origin, j) <= Ball(arcs, origin, k)
    decreases k
  {
    if j < k {
      BallGrows(arcs, origin, j, k - 1);
    }
  }

  lemma DistanceUnique(arcs: Arcs, origin: nat, n: nat, d: nat, e: nat)
    requires AtDistance(arcs, origin, n, d) && AtDistance(arcs, origin, n, e)
    ensures d == e
  {
    if d < e {
      BallGrows(arcs, origin, d, e - 1);
    } else if e < d {
      BallGrows(arcs, origin, e, d - 1);
    }
  }

  /** Membership of a ball is the existence of a path with at most k arcs. */
  lemma {:induction false} BallIsBoundedReach(arcs: Arcs, origin: nat, k: nat, n: nat)
    ensures n in Ball(arcs, origin, k) <==>
            exists p :: PathBetween(arcs, p, origin, n) && |p| <= k + 1
  {
    if n in Ball(arcs, origin, k) {
      BallHasPath(arcs, origin, k, n);
    }
    if p :| PathBetween(arcs, p, origin, n) && |p| <= k + 1 {
      PathInBall(arcs, origin, p);
      BallGrows(arcs, origin, |p| - 1, k);
    }
  }

  lemma {:induction false} BallHasPath(arcs: Arcs, origin: nat, k: nat, n: nat)
    requires n in Ball(arcs, origin, k)
    ensures exists p :: PathBetween(arcs, p, origin, n) && |p| <= k + 1
  {
    if k == 0 {
      assert PathBetween(arcs, [origin], origin, n);
    } else if n in Ball(arcs, origin, k - 1) {
      BallHasPath(arcs, origin, k - 1, n);
    } else {
      var a :| a in arcs && a.0 in Ball(arcs, origin, k - 1) && a.1 == n;
      BallHasPath(arcs, origin, k - 1, a.0);
      var p :| PathBetween(arcs, p, origin, a.0) && |p| <= k;
      var q := p + [n];
      forall i | 0 <= i < |q| - 1 ensures (q[i], q[i + 1]) in arcs {
        if i == |p| - 1 {
          assert (q[i], q[i + 1]) == a;
        }
      }
      assert PathBetween(arcs, q, origin, n);
    }
  }

  lemma {:induction false} PathInBall(arcs: Arcs, origin: nat, p: seq<nat>)
    requires IsPath(arcs, p) && p[0] == origin
    ensures p[|p| - 1] in Ball(arcs, origin, |p| - 1)
    decreases |p|
  {
    if |p| > 1 {
      var q := p[..|p| - 1];
      PathInBall(arcs, origin, q);
      assert (p[|p| - 2], p[|p| - 2 + 1]) in arcs;
    }
  }
}
