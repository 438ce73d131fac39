// Ascending sequences of identities: how the ordered maps, ordered sets and sorts of the
// program enumerate their contents.
module Ordering {

  predicate Ascending(s: seq<nat>) {
    forall i, j :: 0 <= i < j < |s| ==> s[i] < s[j]
  }

  ghost predicate Enumerates(r: seq<nat>, s: set<nat>) {
    Ascending(r) && forall x :: x in s <==> x in r
  }

  predicate IsLeast(s: set<nat>, m: nat) {
    m in s && forall x :: x in s ==> m <= x
  }

  lemma {:induction false} LeastExists(s: set<nat>)
    requires s != {}
    ensures exists m :: IsLeast(s, m)
    decreases |s|
  {
    var m :| m in s;
    var t := s - {m};
    assert s == t + {m};
    if t == {} {
      assert IsLeast(s, m);
    } else {
      LeastExists(t);
      var k :| IsLeast(t, k);
      assert IsLeast(s, if k < m then k else m);
    }
  }

  function Least(s: set<nat>): (m: nat)
    requires s != {}
    ensures IsLeast(s, m)
  {
    LeastExists(s);
    var m :| m in s && IsLeast(s, m);
    m
  }

  /** The members of a set in ascending order. */
  function Sorted(s: set<nat>): (r: seq<nat>)
    ensures Enumerates(r, s)
    ensures |r| == |s|
    decreases |s|
  {
    if s == {} then [] else var m := Least(s); [m] + Sorted(s - {m})
  }

  lemma SortedMembers(s: set<nat>)
    ensures forall x :: x in s <==> x in Sorted(s)
  {
  }

  /** Where a member of the set stands in the list. */
  lemma PositionOf(s: set<nat>, ids: seq<nat>, k: nat) returns (i: nat)
    requires Enumerates(ids, s) && k in s
    ensures i < |ids| && ids[i] == k
  {
    assert k in ids;
    i :| 0 <= i < |ids| && ids[i] == k;
  }

  lemma SortedMember(s: set<nat>, i: nat)
    requires i < |Sorted(s)|
    ensures Sorted(s)[i] in s
  {
    assert Sorted(s)[i] in Sorted(s);
  }

  lemma SortedAll(s: set<nat>)
    ensures forall i :: 0 <= i < |Sorted(s)| ==> Sorted(s)[i] in s
  {
    forall i | 0 <= i < |Sorted(s)| ensures Sorted(s)[i] in s {
      SortedMember(s, i);
    }
  }

  lemma NonEmptyHasMember<T>(s: seq<T>)
    ensures s != [] ==> exists x :: x in s
  {
    if s != [] {
      assert s[0] in s;
    }
  }

  lemma {:induction false} EnumerationUnique(a: seq<nat>, b: seq<nat>, s: set<nat>)
    requires Enumerates(a, s) && Enumerates(b, s)
    ensures a == b
    decreases |a|
  {
    if a == [] {
      NonEmptyHasMember(b);
    } else {
      assert a[0] in b && b[0] in a;
      assert a[0] == b[0];
      var t := s - {a[0]};
      forall x | x in t ensures x in a[1..] && x in b[1..] {
        assert x in a && x in b;
      }
      EnumerationUnique(a[1..], b[1..], t);
    }
  }

  lemma {:induction false} AscendingSize(r: seq<nat>, s: set<nat>)
    requires Enumerates(r, s)
    ensures |r| == |s|
  {
    EnumerationUnique(r, Sorted(s), s);
  }

  /** std::upper_bound: the first position whose element is greater than x. */
  function UpperBound(s: seq<nat>, x: nat): (k: nat)
    requires Ascending(s)
    ensures k <= |s|
    ensures forall i :: 0 <= i < k ==> s[i] <= x
    ensures forall i :: k <= i < |s| ==> x < s[i]
  {
    if s == [] || x < s[0] then 0 else 1 + UpperBound(s[1..], x)
  }

  function Insert(s: seq<nat>, x: nat): seq<nat>
    requires Ascending(s)
  {
    var k := UpperBound(s, x);
    s[..k] + [x] + s[k..]
  }

  lemma InsertAscending(s: seq<nat>, x: nat)
    requires Ascending(s) && x !in s
    ensures Ascending(Insert(s, x))
    ensures forall y :: y in Insert(s, x) <==> y == x || y in s
  {
    var k := UpperBound(s, x);
    var r := Insert(s, x);
    forall i | 0 <= i < k ensures s[i] < x {
      assert s[i] in s;
    }
    assert r[..k] == s[..k] && r[k] == x && r[k + 1..] == s[k..];
    assert s == s[..k] + s[k..] && r == r[..k] + [r[k]] + r[k + 1..];
  }

  // ---------------------------------------------------------------------------------------
  // Pairs in lexicographic order: (depth, id), (generation, id), (publisher, attempt)
  // ---------------------------------------------------------------------------------------

  type Pair = (nat, nat)

  predicate Before(a: Pair, b: Pair) {
    a.0 < b.0 || (a.0 == b.0 && a.1 < b.1)
  }

  predicate AscendingPairs(s: seq<Pair>) {
    forall i, j :: 0 <= i < j < |s| ==> Before(s[i], s[j])
  }

  predicate IsFirst(s: set<Pair>, m: Pair) {
    m in s && forall x :: x in s ==> x == m || Before(m, x)
  }

  lemma {:induction false} FirstPairExists(s: set<Pair>)
    requires s != {}
    ensures exists m :: IsFirst(s, m)
    decreases |s|
  {
    var m :| m in s;
    var t := s - {m};
    assert s == t + {m};
    if t == {} {
      assert IsFirst(s, m);
    } else {
      FirstPairExists(t);
      var k :| IsFirst(t, k);
      assert IsFirst(s, if Before(k, m) then k else m);
    }
  }

  function FirstPair(s: set<Pair>): (m: Pair)
    requires s != {}
    ensures IsFirst(s, m)
  {
    FirstPairExists(s);
    var m :| m in s && IsFirst(s, m);
    m
  }

  function SortedPairs(s: set<Pair>): (r: seq<Pair>)
    ensures AscendingPairs(r)
    ensures forall x :: x in s <==> x in r
    ensures |r| == |s|
    decreases |s|
  {
    if s == {} then [] else var m := FirstPair(s); [m] + SortedPairs(s - {m})
  }

  lemma SortedPairsAll(s: set<Pair>)
    ensures forall i :: 0 <= i < |SortedPairs(s)| ==> SortedPairs(s)[i] in s
  {
    var r := SortedPairs(s);
    forall i | 0 <= i < |r| ensures r[i] in s {
      assert r[i] in r;
    }
  }
}
