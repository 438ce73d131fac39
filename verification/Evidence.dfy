// Evidence vectors (EvidenceVector::create, src/core.cpp:777): sorted by field, without zero
// generations or conflicting values, repetitions dropped.
module EvidenceVectors {
  import opened Types
  import opened StoreTypes

  function InsertByField(s: seq<EvidenceEntry>, e: EvidenceEntry): (r: seq<EvidenceEntry>)
    ensures |r| == |s| + 1
    ensures forall x :: x in r <==> x == e || x in s
  {
    if s == [] || e.field < s[0].field then [e] + s else [s[0]] + InsertByField(s[1..], e)
  }

  function SortByField(s: seq<EvidenceEntry>): (r: seq<EvidenceEntry>)
    ensures |r| == |s|
    ensures forall x :: x in r <==> x in s
  {
    if s == [] then []
    else
      assert s == s[..|s| - 1] + [s[|s| - 1]];
      InsertByField(SortByField(s[..|s| - 1]), s[|s| - 1])
  }

  predicate ByField(s: seq<EvidenceEntry>) {
    forall i, j :: 0 <= i < j < |s| ==> s[i].field <= s[j].field
  }

  lemma {:induction false} InsertKeepsOrder(s: seq<EvidenceEntry>, e: EvidenceEntry)
    requires ByField(s)
    ensures ByField(InsertByField(s, e))
    decreases |s|
  {
    if s != [] && !(e.field < s[0].field) {
      InsertKeepsOrder(s[1..], e);
      var r := InsertByField(s[1..], e);
      forall j | 0 <= j < |r| ensures s[0].field <= r[j].field {
        assert r[j] in r;
      }
    }
  }

  lemma {:induction false} SortGivesOrder(s: seq<EvidenceEntry>)
    ensures ByField(SortByField(s))
    decreases |s|
  {
    if s != [] {
      SortGivesOrder(s[..|s| - 1]);
      InsertKeepsOrder(SortByField(s[..|s| - 1]), s[|s| - 1]);
    }
  }

  /** One pass over the sorted entries, keeping the last accepted one in view. */
  function Scan(done: seq<EvidenceEntry>, rest: seq<EvidenceEntry>): Result<seq<EvidenceEntry>>
    decreases |rest|
  {
    if rest == [] then Success(done)
    else
      var e := rest[0];
      if e.value == 0 then Failure(InvalidSourceGeneration)
      else if done != [] && done[|done| - 1].field == e.field then
        if done[|done| - 1].value != e.value then Failure(MalformedRequest) else Scan(done, rest[1..])
      else Scan(done + [e], rest[1..])
  }

  function Create(entries: seq<EvidenceEntry>, limits: Limits): Result<seq<EvidenceEntry>> {
    if |entries| > limits.maxEvidence then Failure(ResourceLimit) else Scan([], SortByField(entries))
  }

  /** The pass as the program makes it: sort, then keep, drop or refuse one entry at a time. */
  method CreateVector(entries: seq<EvidenceEntry>, limits: Limits) returns (r: Result<seq<EvidenceEntry>>)
    ensures r == Create(entries, limits)
  {
    if |entries| > limits.maxEvidence {
      return Failure(ResourceLimit);
    }
    var sorted := SortByField(entries);
    var vector: seq<EvidenceEntry> := [];
    var i := 0;
    assert sorted[0..] == sorted;
    while i < |sorted|
      invariant 0 <= i <= |sorted|
      invariant Scan(vector, sorted[i..]) == Scan([], sorted)
    {
      var e := sorted[i];
      assert sorted[i..][0] == e && sorted[i..][1..] == sorted[i + 1..];
      if e.value == 0 {
        return Failure(InvalidSourceGeneration);
      }
      if vector != [] && vector[|vector| - 1].field == e.field {
        if vector[|vector| - 1].value != e.value {
          return Failure(MalformedRequest);
        }
      } else {
        vector := vector + [e];
      }
      i := i + 1;
    }
    assert sorted[i..] == [];
    return Success(vector);
  }

  // ---------------------------------------------------------------------------------------
  // What create accepts and what it returns
  // ---------------------------------------------------------------------------------------

  /** No zero generation and no two values for one field. */
  predicate ConsistentEntries(entries: seq<EvidenceEntry>) {
    && (forall i :: 0 <= i < |entries| ==> entries[i].value != 0)
    && (forall i, j :: 0 <= i < |entries| && 0 <= j < |entries| && entries[i].field == entries[j].field ==>
          entries[i].value == entries[j].value)
  }

  predicate SameEntries(a: seq<EvidenceEntry>, b: seq<EvidenceEntry>) {
    (forall x :: x in a ==> x in b) && (forall x :: x in b ==> x in a)
  }

  lemma {:induction false} ScanResult(done: seq<EvidenceEntry>, rest: seq<EvidenceEntry>)
    requires CanonicalEvidence(done) && ByField(done + rest)
    ensures Scan(done, rest).Success? <==> ConsistentEntries(done + rest)
    ensures Scan(done, rest).Success? ==>
              CanonicalEvidence(Scan(done, rest).value) && SameEntries(Scan(done, rest).value, done + rest)
    decreases |rest|
  {
    var all := done + rest;
    if rest == [] {
      assert all == done;
      CanonicalIsConsistent(done);
    } else {
      var e, n := rest[0], |done|;
      assert all[n] == e;
      if e.value != 0 {
        if done != [] && done[n - 1].field == e.field {
          assert all[n - 1] == done[n - 1];
          if done[n - 1].value == e.value {
            assert e == done[n - 1];
            RepetitionDropped(done, rest);
            assert forall x :: x in EntrySet(all) <==> x in EntrySet(done + rest[1..]);
            ScanResult(done, rest[1..]);
            SameEntriesConsistent(all, done + rest[1..]);
          }
        } else {
          var next := done + [e];
          assert next + rest[1..] == all;
          forall i | 0 <= i < n ensures next[i].field < e.field {
            assert all[i] == done[i] && all[i].field <= all[n].field;
            assert done[i].field <= done[n - 1].field;
            assert all[n - 1] == done[n - 1];
          }
          ScanResult(next, rest[1..]);
        }
      }
    }
  }

  lemma CanonicalIsConsistent(s: seq<EvidenceEntry>)
    requires CanonicalEvidence(s)
    ensures ConsistentEntries(s)
  {
  }

  lemma SameEntriesConsistent(a: seq<EvidenceEntry>, b: seq<EvidenceEntry>)
    requires forall x :: x in a <==> x in b
    ensures ConsistentEntries(a) <==> ConsistentEntries(b)
  {
    EntriesConsistent(a, b);
    EntriesConsistent(b, a);
  }

  lemma EntriesConsistent(a: seq<EvidenceEntry>, b: seq<EvidenceEntry>)
    requires forall x :: x in b ==> x in a
    ensures ConsistentEntries(a) ==> ConsistentEntries(b)
  {
    if ConsistentEntries(a) {
      forall i | 0 <= i < |b| ensures b[i].value != 0 {
        assert b[i] in a;
      }
      forall i, j | 0 <= i < |b| && 0 <= j < |b| && b[i].field == b[j].field ensures b[i].value == b[j].value {
        assert b[i] in a && b[j] in a;
      }
    }
  }

  /** A canonical vector is determined by its entries. */
  lemma {:induction false} CanonicalUnique(a: seq<EvidenceEntry>, b: seq<EvidenceEntry>)
    requires CanonicalEvidence(a) && CanonicalEvidence(b) && SameEntries(a, b)
    ensures a == b
    decreases |a|
  {
    if a == [] {
      if b != [] {
        EntryPresent(b, a);
      }
    } else {
      EntryPresent(a, b);
      assert b != [];
      EntryPresent(b, a);
      assert a[0] in b && b[0] in a;
      assert a[0] == b[0];
      forall x | x in a[1..] ensures x in b[1..] {
        assert x in a && x in b && x.field > a[0].field;
      }
      forall x | x in b[1..] ensures x in a[1..] {
        assert x in b && x in a && x.field > b[0].field;
      }
      CanonicalUnique(a[1..], b[1..]);
    }
  }

  lemma EntryPresent(a: seq<EvidenceEntry>, b: seq<EvidenceEntry>)
    requires SameEntries(a, b) && a != []
    ensures b != [] && a[0] in b
  {
    assert a[0] in a;
  }

  /** create accepts exactly the consistent entries within the bound, and gives the canonical
      vector of the same entries. */
  lemma CreateResult(entries: seq<EvidenceEntry>, limits: Limits)
    ensures Create(entries, limits).Success? <==> |entries| <= limits.maxEvidence && ConsistentEntries(entries)
    ensures Create(entries, limits).Success? ==>
              CanonicalEvidence(Create(entries, limits).value) && SameEntries(Create(entries, limits).value, entries)
  {
    if |entries| <= limits.maxEvidence {
      var sorted := SortByField(entries);
      SortGivesOrder(entries);
      assert [] + sorted == sorted;
      ScanResult([], sorted);
      SameEntriesConsistent(sorted, entries);
    }
  }

  /** Order does not matter: every accepted permutation gives the same vector. */
  lemma CreateIgnoresOrder(a: seq<EvidenceEntry>, b: seq<EvidenceEntry>, limits: Limits)
    requires multiset(a) == multiset(b)
    ensures Create(a, limits).Success? <==> Create(b, limits).Success?
    ensures Create(a, limits).Success? ==> Create(a, limits).value == Create(b, limits).value
  {
    assert |multiset(a)| == |a| && |multiset(b)| == |b|;
    forall x ensures x in a <==> x in b {
      assert x in a <==> x in multiset(a);
      assert x in b <==> x in multiset(b);
    }
    CreateResult(a, limits);
    CreateResult(b, limits);
    SameEntriesConsistent(a, b);
    if Create(a, limits).Success? {
      CanonicalUnique(Create(a, limits).value, Create(b, limits).value);
    }
  }

  // ---------------------------------------------------------------------------------------
  // Which error a refused vector gets
  // ---------------------------------------------------------------------------------------

  function EntrySet(s: seq<EvidenceEntry>): set<EvidenceEntry> {
    set e | e in s
  }

  predicate HasZero(all: set<EvidenceEntry>, f: nat) {
    EvidenceEntry(f, 0) in all
  }

  ghost predicate Conflicting(all: set<EvidenceEntry>, f: nat) {
    exists x, y :: x in all && y in all && x.field == f && y.field == f && x.value != y.value &&
                   x.value != 0 && y.value != 0
  }

  ghost predicate Faulty(all: set<EvidenceEntry>, f: nat) {
    HasZero(all, f) || Conflicting(all, f)
  }

  /** The least field with a zero generation or two different ones. */
  ghost predicate FirstFault(all: set<EvidenceEntry>, f: nat) {
    Faulty(all, f) && forall g: nat :: g < f ==> !Faulty(all, g)
  }

  ghost predicate Refuses(r: Result<seq<EvidenceEntry>>, all: set<EvidenceEntry>, f: nat) {
    match r
    case Success(_) => false
    case Failure(o) =>
      (!Conflicting(all, f) ==> o == InvalidSourceGeneration) && (!HasZero(all, f) ==> o == MalformedRequest)
  }

  /** Not all of a faulty field is canonical. */
  lemma FaultNotDone(done: seq<EvidenceEntry>, all: set<EvidenceEntry>, f: nat) returns (x: EvidenceEntry)
    requires CanonicalEvidence(done) && Faulty(all, f)
    ensures x in all && x.field == f && x !in done
  {
    if HasZero(all, f) {
      x := EvidenceEntry(f, 0);
    } else {
      var y;
      x, y :| x in all && y in all && x.field == f && y.field == f && x.value != y.value && x.value != 0 &&
        y.value != 0;
      x := if x in done then y else x;
    }
  }

  /** A pass that has met no fault is not past the first one. */
  lemma FaultIsAhead(done: seq<EvidenceEntry>, rest: seq<EvidenceEntry>, all: set<EvidenceEntry>, f: nat)
    requires CanonicalEvidence(done) && ByField(done + rest) && EntrySet(done + rest) == all && Faulty(all, f)
    ensures rest != [] && rest[0] in all && rest[0].field <= f
  {
    hide Faulty;
    var x := FaultNotDone(done, all, f);
    var i :| 0 <= i < |done + rest| && (done + rest)[i] == x;
    assert (done + rest)[|done|] == rest[0] && i >= |done|;
  }

  lemma FirstIsHere(all: set<EvidenceEntry>, f: nat, e: EvidenceEntry)
    requires FirstFault(all, f) && e in all && e.field <= f
    ensures e.value == 0 || Conflicting(all, e.field) ==> e.field == f
    ensures e.value == 0 ==> HasZero(all, e.field)
  {
    hide Conflicting;
    assert e == EvidenceEntry(e.field, e.value);
    assert e.value == 0 || Conflicting(all, e.field) ==> Faulty(all, e.field);
  }

  lemma NextIsCanonical(done: seq<EvidenceEntry>, e: EvidenceEntry, rest: seq<EvidenceEntry>)
    requires CanonicalEvidence(done) && ByField(done + [e] + rest) && e.value != 0
    requires done == [] || done[|done| - 1].field != e.field
    ensures CanonicalEvidence(done + [e])
  {
    var all, n := done + [e] + rest, |done|;
    forall i | 0 <= i < n ensures done[i].field < e.field {
      assert all[i] == done[i] && all[n] == e && all[n - 1] == done[n - 1];
    }
  }

  /** The pass stops within the first faulty field. */
  lemma {:induction false} ScanStops(done: seq<EvidenceEntry>, rest: seq<EvidenceEntry>, all: set<EvidenceEntry>,
                                     f: nat)
    requires CanonicalEvidence(done) && ByField(done + rest) && EntrySet(done + rest) == all && FirstFault(all, f)
    ensures Refuses(Scan(done, rest), all, f)
    decreases |rest|
  {
    FaultIsAhead(done, rest, all, f);
    hide FirstFault, Faulty, HasZero, ByField, EntrySet;
    var n, e := |done|, rest[0];
    FirstIsHere(all, f, e);
    if e.value != 0 && done != [] && done[n - 1].field == e.field {
      if done[n - 1].value == e.value {
        assert e == done[n - 1];
        RepetitionDropped(done, rest);
        ScanStops(done, rest[1..], all, f);
      } else {
        MemberOf(done, rest, n - 1);
        assert Conflicting(all, e.field);
      }
    } else if e.value != 0 {
      assert done + [e] + rest[1..] == done + rest;
      NextIsCanonical(done, e, rest[1..]);
      ScanStops(done + [e], rest[1..], all, f);
    }
  }

  lemma MemberOf(done: seq<EvidenceEntry>, rest: seq<EvidenceEntry>, i: nat)
    requires i < |done|
    ensures done[i] in EntrySet(done + rest)
  {
    assert (done + rest)[i] == done[i];
  }

  lemma RepetitionDropped(done: seq<EvidenceEntry>, rest: seq<EvidenceEntry>)
    requires ByField(done + rest) && rest != [] && rest[0] in done
    ensures ByField(done + rest[1..]) && EntrySet(done + rest[1..]) == EntrySet(done + rest)
  {
    var all, fewer, n := done + rest, done + rest[1..], |done|;
    assert rest == [rest[0]] + rest[1..];
    forall i, j | 0 <= i < j < |fewer| ensures fewer[i].field <= fewer[j].field {
      assert fewer[i] == all[if i < n then i else i + 1] && fewer[j] == all[if j < n then j else j + 1];
    }
  }

  /** A field that holds a zero generation but no two others, or two others but no zero, decides the
      error whatever the order. */
  lemma ErrorOfFirstFault(entries: seq<EvidenceEntry>, limits: Limits, f: nat)
    requires |entries| <= limits.maxEvidence && FirstFault(EntrySet(entries), f)
    ensures Refuses(Create(entries, limits), EntrySet(entries), f)
  {
    var sorted := SortByField(entries);
    SortGivesOrder(entries);
    assert [] + sorted == sorted && EntrySet(sorted) == EntrySet(entries);
    ScanStops([], sorted, EntrySet(entries), f);
  }

  lemma {:induction false} InsertAtEnd(s: seq<EvidenceEntry>, e: EvidenceEntry)
    requires forall x :: x in s ==> x.field <= e.field
    ensures InsertByField(s, e) == s + [e]
    decreases |s|
  {
    if s != [] {
      InsertAtEnd(s[1..], e);
    }
  }

  lemma {:induction false} SortKeepsSorted(s: seq<EvidenceEntry>)
    requires ByField(s)
    ensures SortByField(s) == s
    decreases |s|
  {
    if s != [] {
      SortKeepsSorted(s[..|s| - 1]);
      InsertAtEnd(s[..|s| - 1], s[|s| - 1]);
    }
  }

  /** The entry at j moved before those of its field that start at k. */
  function Fronted(s: seq<EvidenceEntry>, k: nat, j: nat): seq<EvidenceEntry>
    requires k <= j < |s|
  {
    s[..k] + [s[j]] + s[k..j] + s[j + 1..]
  }

  lemma FrontedPermutes(s: seq<EvidenceEntry>, k: nat, j: nat)
    requires k <= j < |s|
    ensures multiset(Fronted(s, k, j)) == multiset(s)
  {
    assert s == s[..k] + s[k..j] + [s[j]] + s[j + 1..];
  }

  lemma FrontedSorted(s: seq<EvidenceEntry>, k: nat, j: nat)
    requires ByField(s) && k <= j < |s| && s[k].field == s[j].field
    ensures ByField(Fronted(s, k, j))
    ensures |Fronted(s, k, j)| == |s| && Fronted(s, k, j)[k] == s[j] && Fronted(s, k, j)[..k] == s[..k]
    ensures forall i :: k < i <= j ==> Fronted(s, k, j)[i] == s[i - 1]
  {
    var t := Fronted(s, k, j);
    forall i | 0 <= i < |s| ensures t[i] == s[if i == k then j else if k < i <= j then i - 1 else i] {
    }
  }

  /** The pass accepts what lies below the first faulty field. */
  lemma {:induction false} ScanPrefix(done: seq<EvidenceEntry>, pre: seq<EvidenceEntry>, rest: seq<EvidenceEntry>,
                                      f: nat)
    returns (seen: seq<EvidenceEntry>)
    requires ConsistentEntries(done + pre) && forall x :: x in done + pre ==> x.field < f
    ensures Scan(done, pre + rest) == Scan(seen, rest) && forall x :: x in seen ==> x.field < f
    decreases |pre|
  {
    if pre == [] {
      assert pre + rest == rest;
      seen := done;
    } else {
      var e, n := pre[0], |done|;
      assert (pre + rest)[1..] == pre[1..] + rest && (pre + rest)[0] == e;
      assert (done + pre)[n] == e && forall i :: 0 <= i < n ==> (done + pre)[i] == done[i];
      assert pre == [e] + pre[1..];
      if done != [] && done[n - 1].field == e.field {
        EntriesConsistent(done + pre, done + pre[1..]);
        seen := ScanPrefix(done, pre[1..], rest, f);
      } else {
        assert done + [e] + pre[1..] == done + pre;
        seen := ScanPrefix(done + [e], pre[1..], rest, f);
      }
    }
  }

  /** Where the first faulty field starts in the sorted entries. */
  lemma FaultStart(s: seq<EvidenceEntry>, f: nat) returns (k: nat)
    requires ByField(s) && FirstFault(EntrySet(s), f)
    ensures k < |s| && s[k].field == f && ConsistentEntries(s[..k])
    ensures forall x :: x in s[..k] ==> x.field < f
  {
    var x :| x in s && x.field == f;
    var j :| 0 <= j < |s| && s[j] == x;
    k := 0;
    while s[k].field < f
      invariant k <= j && forall i :: 0 <= i < k ==> s[i].field < f
      decreases j - k
    {
      k := k + 1;
    }
    forall i | 0 <= i < k ensures s[..k][i].value != 0 {
      assert s[i] in EntrySet(s) && !Faulty(EntrySet(s), s[i].field);
      assert s[i] == EvidenceEntry(s[i].field, s[i].value);
    }
    forall i, l | 0 <= i < k && 0 <= l < k && s[..k][i].field == s[..k][l].field
      ensures s[..k][i].value == s[..k][l].value
    {
      assert s[i] in EntrySet(s) && s[l] in EntrySet(s) && !Faulty(EntrySet(s), s[i].field);
      assert s[i] == EvidenceEntry(s[i].field, s[i].value) && s[l] == EvidenceEntry(s[l].field, s[l].value);
    }
  }

  /** An order in which the entry comes first of its field. */
  lemma Front(s: seq<EvidenceEntry>, k: nat, x: EvidenceEntry) returns (t: seq<EvidenceEntry>)
    requires ByField(s) && k < |s| && s[k].field == x.field && x in s
    requires forall e :: e in s[..k] ==> e.field < x.field
    ensures ByField(t) && multiset(t) == multiset(s) && |t| == |s| && t[k] == x && t[..k] == s[..k]
    ensures s[k] != x ==> k + 1 < |t| && t[k + 1] == s[k]
  {
    var j :| 0 <= j < |s| && s[j] == x;
    forall i | 0 <= i < k ensures s[i].field < x.field {
      assert s[..k][i] in s[..k];
    }
    t := Fronted(s, k, j);
    FrontedSorted(s, k, j);
    FrontedPermutes(s, k, j);
  }

  /** An order in which the zero of the faulty field comes first. */
  lemma ZeroFirst(s: seq<EvidenceEntry>, f: nat) returns (t: seq<EvidenceEntry>)
    requires ByField(s) && FirstFault(EntrySet(s), f) && HasZero(EntrySet(s), f)
    ensures ByField(t) && multiset(t) == multiset(s) && Scan([], t) == Failure(InvalidSourceGeneration)
  {
    var k := FaultStart(s, f);
    t := Front(s, k, EvidenceEntry(f, 0));
    assert t == t[..k] + t[k..] && [] + t[..k] == t[..k];
    var seen := ScanPrefix([], t[..k], t[k..], f);
    assert t[k..][0] == EvidenceEntry(f, 0);
  }

  /** An order in which two different generations of the faulty field come first. */
  lemma ConflictFirst(s: seq<EvidenceEntry>, f: nat) returns (t: seq<EvidenceEntry>)
    requires ByField(s) && FirstFault(EntrySet(s), f) && Conflicting(EntrySet(s), f)
    ensures ByField(t) && multiset(t) == multiset(s) && Scan([], t) == Failure(MalformedRequest)
  {
    hide Scan, FirstFault, ByField, ConsistentEntries;
    var k := FaultStart(s, f);
    var x, y :| x in s && y in s && x.field == f && y.field == f && x.value != y.value && x.value != 0 && y.value != 0;
    var u := Front(s, k, x);
    SameMembers(u, s);
    assert y in EntrySet(u);
    t := Front(u, k, y);
    PairRefused(t, k);
  }

  lemma PairRefused(t: seq<EvidenceEntry>, k: nat)
    requires k + 1 < |t| && ConsistentEntries(t[..k]) && forall e :: e in t[..k] ==> e.field < t[k].field
    requires t[k + 1].field == t[k].field && t[k].value != 0 && t[k + 1].value != 0 && t[k].value != t[k + 1].value
    ensures Scan([], t) == Failure(MalformedRequest)
  {
    assert t == t[..k] + t[k..] && [] + t[..k] == t[..k];
    var seen := ScanPrefix([], t[..k], t[k..], t[k].field);
    assert t[k..][0] == t[k] && t[k..][1..][0] == t[k + 1];
    assert Scan(seen, t[k..]) == Scan(seen + [t[k]], t[k..][1..]);
  }

  lemma SameMembers(a: seq<EvidenceEntry>, b: seq<EvidenceEntry>)
    requires multiset(a) == multiset(b)
    ensures EntrySet(a) == EntrySet(b) && |a| == |b|
  {
    assert |multiset(a)| == |a| && |multiset(b)| == |b|;
    forall x ensures x in a <==> x in b {
      assert x in a <==> x in multiset(a);
      assert x in b <==> x in multiset(b);
    }
  }

  ghost predicate ErrorIgnoresOrder(entries: seq<EvidenceEntry>, limits: Limits) {
    forall b :: multiset(b) == multiset(entries) ==> Create(b, limits) == Create(entries, limits)
  }

  /** The vector never depends on the order; the error of a refused one does exactly when the
      first faulty field holds both a zero generation and two different ones. */
  lemma RefusalDependsOnOrder(entries: seq<EvidenceEntry>, limits: Limits, f: nat)
    requires |entries| <= limits.maxEvidence && FirstFault(EntrySet(entries), f)
    ensures ErrorIgnoresOrder(entries, limits) <==>
            !(HasZero(EntrySet(entries), f) && Conflicting(EntrySet(entries), f))
  {
    hide SortByField, Scan, FirstFault, HasZero, Conflicting, EntrySet;
    if HasZero(EntrySet(entries), f) && Conflicting(EntrySet(entries), f) {
      var s := SortByField(entries);
      SortGivesOrder(entries);
      SortPermutes(entries);
      SameMembers(s, entries);
      var zero := ZeroFirst(s, f);
      var conflict := ConflictFirst(s, f);
      SortKeepsSorted(zero);
      SortKeepsSorted(conflict);
      SameMembers(zero, entries);
      SameMembers(conflict, entries);
      assert Create(zero, limits) != Create(conflict, limits);
    } else {
      forall b | multiset(b) == multiset(entries) ensures Create(b, limits) == Create(entries, limits) {
        SameMembers(b, entries);
        ErrorOfFirstFault(b, limits, f);
        ErrorOfFirstFault(entries, limits, f);
        FaultIsOneOfTwo(EntrySet(entries), f);
      }
    }
  }

  lemma FaultIsOneOfTwo(all: set<EvidenceEntry>, f: nat)
    requires FirstFault(all, f)
    ensures HasZero(all, f) || Conflicting(all, f)
  {
  }

  lemma {:induction false} InsertPermutes(s: seq<EvidenceEntry>, e: EvidenceEntry)
    ensures multiset(InsertByField(s, e)) == multiset(s) + multiset{e}
    decreases |s|
  {
    if s != [] && !(e.field < s[0].field) {
      InsertPermutes(s[1..], e);
      assert s == [s[0]] + s[1..];
    }
  }

  lemma {:induction false} SortPermutes(s: seq<EvidenceEntry>)
    ensures multiset(SortByField(s)) == multiset(s)
    decreases |s|
  {
    if s != [] {
      SortPermutes(s[..|s| - 1]);
      InsertPermutes(SortByField(s[..|s| - 1]), s[|s| - 1]);
      assert s == s[..|s| - 1] + [s[|s| - 1]];
    }
  }

  /** A canonical vector is a fixed point. */
  lemma CreateKeepsCanonical(s: seq<EvidenceEntry>, limits: Limits)
    requires CanonicalEvidence(s) && |s| <= limits.maxEvidence
    ensures Create(s, limits) == Success(s)
  {
    CanonicalIsConsistent(s);
    CreateResult(s, limits);
    CanonicalUnique(Create(s, limits).value, s);
  }
}
