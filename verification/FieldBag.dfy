// The field bag of the wire protocol (src/wire.cpp:164): a set of numbered byte fields kept
// together with its canonical encoding, parsed strictly and printed in ascending order.
module FieldBags {
  import opened Types
  import opened Ordering
  import opened StoreTypes
  import opened Bytes
  import opened EvidenceVectors
  import opened Codec
  import opened Canonical

  type Fields = map<nat, seq<Byte>>

  // ---------------------------------------------------------------------------------------
  // Printing and parsing
  // ---------------------------------------------------------------------------------------

  /** The fields of the listed numbers, in that order. */
  function Listed(m: Fields, ids: seq<nat>): seq<Field>
    requires forall i :: 0 <= i < |ids| ==> ids[i] in m
  {
    seq(|ids|, i requires 0 <= i < |ids| => Field(ids[i], m[ids[i]]))
  }

  function Ids(m: Fields): (ids: seq<nat>)
    ensures forall i :: 0 <= i < |ids| ==> ids[i] in m
  {
    SortedAll(m.Keys);
    Sorted(m.Keys)
  }

  /** The canonical form: every field once, in ascending order. */
  function Print(m: Fields): seq<Byte> {
    Encode(Listed(m, Ids(m)))
  }

  predicate DistinctFields(fs: seq<Field>) {
    forall i, j :: 0 <= i < j < |fs| ==> fs[i].id != fs[j].id
  }

  /** Collects the fields; a number that comes twice is refused. */
  function Gathered(m: Fields, fs: seq<Field>): Option<Fields>
    decreases |fs|
  {
    if fs == [] then Some(m)
    else if fs[0].id in m then None
    else Gathered(m[fs[0].id := fs[0].payload], fs[1..])
  }

  function Parse(s: seq<Byte>, limits: Limits): Result<Fields> {
    if |s| > limits.maxFrameBytes then Failure(ResourceLimit)
    else
      var fs := Decode(s);
      if fs.None? then Failure(ProtocolFailure)
      else
        var m := Gathered(map[], fs.value);
        if m.None? then Failure(ProtocolFailure) else Success(m.value)
  }

  /** The bag holds exactly these fields. */
  ghost predicate Holds(m: Fields, fs: seq<Field>) {
    && (forall i :: 0 <= i < |fs| ==> fs[i].id in m && m[fs[i].id] == fs[i].payload)
    && (forall k :: k in m ==> exists i :: 0 <= i < |fs| && fs[i].id == k)
  }

  lemma {:induction false} CollectAll(m: Fields, fs: seq<Field>, t: Fields)
    requires DistinctFields(fs)
    requires forall i :: 0 <= i < |fs| ==> fs[i].id !in m && fs[i].id in t && t[fs[i].id] == fs[i].payload
    requires forall k :: k in m ==> k in t && t[k] == m[k]
    requires forall k :: k in t ==> k in m || exists i :: 0 <= i < |fs| && fs[i].id == k
    ensures Gathered(m, fs) == Some(t)
    decreases |fs|
  {
    if fs == [] {
      assert m == t;
    } else {
      var next := m[fs[0].id := fs[0].payload];
      forall k | k in t ensures k in next || exists i :: 0 <= i < |fs[1..]| && fs[1..][i].id == k {
        if k !in m && k != fs[0].id {
          var i :| 0 <= i < |fs| && fs[i].id == k;
          assert fs[1..][i - 1].id == k;
        }
      }
      CollectAll(next, fs[1..], t);
    }
  }

  predicate RepBag(m: Fields) {
    forall k :: k in m ==> Fits(k, 2) && Fits(|m[k]|, 4)
  }

  lemma ListedRep(m: Fields)
    requires RepBag(m)
    ensures RepFields(Listed(m, Ids(m)))
  {
    hide Fits, Sorted;
  }

  lemma ListedHolds(m: Fields)
    ensures Holds(m, Listed(m, Ids(m))) && DistinctFields(Listed(m, Ids(m)))
  {
    hide Fits, Sorted;
    var ids, fs := Ids(m), Listed(m, Ids(m));
    SortedMembers(m.Keys);
    forall k | k in m ensures exists i :: 0 <= i < |fs| && fs[i].id == k {
      var i :| 0 <= i < |ids| && ids[i] == k;
      assert fs[i].id == k;
    }
  }

  /** Any duplicate-free ordering of the fields parses to the same bag. */
  lemma AnyOrderParses(m: Fields, fs: seq<Field>, limits: Limits)
    requires RepFields(fs) && DistinctFields(fs) && Holds(m, fs) && |Encode(fs)| <= limits.maxFrameBytes
    ensures Parse(Encode(fs), limits) == Success(m)
  {
    hide Encode, Decode, RepField;
    DecodeEncode(fs);
    CollectAll(map[], fs, m);
  }

  /** Parsing the canonical form gives the bag back. */
  lemma ParsePrint(m: Fields, limits: Limits)
    requires RepBag(m) && |Print(m)| <= limits.maxFrameBytes
    ensures Parse(Print(m), limits) == Success(m)
  {
    hide Encode, Fits, Listed, Ids, Parse, Holds, DistinctFields, RepFields;
    ListedHolds(m);
    ListedRep(m);
    AnyOrderParses(m, Listed(m, Ids(m)), limits);
  }

  /** Whatever order the fields came in, the bag prints them in the one canonical order. */
  lemma PrintIsCanonical(fs: seq<Field>, gs: seq<Field>, limits: Limits)
    requires RepFields(fs) && RepFields(gs) && DistinctFields(fs) && DistinctFields(gs)
    requires |Encode(fs)| <= limits.maxFrameBytes && |Encode(gs)| <= limits.maxFrameBytes
    requires forall f :: f in fs <==> f in gs
    ensures Parse(Encode(fs), limits).Success? && Parse(Encode(gs), limits).Success?
    ensures Print(Parse(Encode(fs), limits).value) == Print(Parse(Encode(gs), limits).value)
    ensures Holds(Parse(Encode(fs), limits).value, fs)
  {
    hide Encode, Parse, RepField, Print;
    var m := Bag(fs);
    BagHolds(fs);
    forall i | 0 <= i < |gs| ensures gs[i].id in m && m[gs[i].id] == gs[i].payload {
      assert gs[i] in fs;
    }
    forall k | k in m ensures exists i :: 0 <= i < |gs| && gs[i].id == k {
      var i :| 0 <= i < |fs| && fs[i].id == k;
      assert fs[i] in gs;
    }
    AnyOrderParses(m, fs, limits);
    AnyOrderParses(m, gs, limits);
  }

  ghost function Bag(fs: seq<Field>): Fields
    requires DistinctFields(fs)
  {
    map i | 0 <= i < |fs| :: fs[i].id := fs[i].payload
  }

  lemma BagHolds(fs: seq<Field>)
    requires DistinctFields(fs)
    ensures Holds(Bag(fs), fs)
  {
  }

  // ---------------------------------------------------------------------------------------
  // The class
  // ---------------------------------------------------------------------------------------

  /** The bag keeps its canonical encoding up to date with every change. */
  class FieldBag {
    var fields: Fields
    var encoded: seq<Byte>

    ghost predicate Valid()
      reads this
    {
      encoded == Print(fields)
    }

    constructor ()
      ensures Valid() && fields == map[]
    {
      fields := map[];
      encoded := [];
    }

    /** Writes the fields one after the other in ascending order. */
    method Rebuild()
      modifies this`encoded
      ensures Valid()
    {
      hide Put, Encode, Sorted;
      var ids := Ids(fields);
      ghost var fs := Listed(fields, ids);
      encoded := [];
      var i := 0;
      assert fs[0..] == fs;
      while i < |ids|
        invariant 0 <= i <= |ids| && fs == Listed(fields, ids)
        invariant encoded + Encode(fs[i..]) == Encode(fs)
      {
        var header := Put(ids[i], 2, Put(|fields[ids[i]]|, 4, []));
        EncodeStep(fs, i);
        JoinPieces(encoded, header, fields[ids[i]], Encode(fs[i + 1..]));
        encoded := encoded + header + fields[ids[i]];
        i := i + 1;
      }
      assert fs[i..] == [];
      EncodeNothing();
    }

    method SetBytes(field: nat, value: seq<Byte>)
      modifies this
      ensures Valid() && fields == old(fields)[field := value]
    {
      fields := fields[field := value];
      Rebuild();
    }

    method SetNumber(field: nat, value: nat, width: nat)
      modifies this
      ensures Valid() && fields == old(fields)[field := Put(value, width, [])]
    {
      SetBytes(field, Put(value, width, []));
    }

    /** A number is present only when its field has exactly the right width. */
    function Number(field: nat, width: nat): Option<nat>
      reads this
    {
      NumberIn(fields, field, width)
    }

    /** Fills an empty bag from an encoding; says why it was refused otherwise. */
    method Read(s: seq<Byte>, limits: Limits) returns (outcome: Outcome)
      requires fields == map[] && Valid()
      modifies this
      ensures outcome == Ok <==> Parse(s, limits).Success?
      ensures outcome == Ok ==> fields == Parse(s, limits).value && Valid()
      ensures outcome != Ok ==> Parse(s, limits).Failure? && outcome == Parse(s, limits).outcome
    {
      if |s| > limits.maxFrameBytes {
        return ResourceLimit;
      }
      var rest := s;
      while rest != []
        invariant ParseFrom(fields, rest) == ParseFrom(map[], s)
        decreases |rest|
      {
        var id := Get(rest, 2);
        GetSize(rest, 2);
        if id.Bad? {
          return ProtocolFailure;
        }
        var size := Get(id.rest, 4);
        GetSize(id.rest, 4);
        if size.Bad? || |size.rest| < size.value {
          return ProtocolFailure;
        }
        if id.value in fields {
          return ProtocolFailure;
        }
        fields := fields[id.value := size.rest[..size.value]];
        rest := size.rest[size.value..];
      }
      ParseFromDone(fields);
      Rebuild();
      return Ok;
    }
  }

  function NumberIn(m: Fields, field: nat, width: nat): Option<nat> {
    if field !in m || |m[field]| != width then None
    else
      var v := Get(m[field], width);
      if v.Bad? then None else Some(v.value)
  }

  lemma JoinPieces(e: seq<Byte>, h: seq<Byte>, p: seq<Byte>, t: seq<Byte>)
    ensures e + (h + p + t) == e + h + p + t
  {
  }

  lemma EncodeNothing()
    ensures Encode([]) == []
  {
  }

  lemma Regroup(a: seq<Byte>, b: seq<Byte>, p: seq<Byte>, t: seq<Byte>)
    ensures a + (b + (p + t)) == a + b + p + t
  {
  }

  lemma EncodeStep(fs: seq<Field>, i: nat)
    requires i < |fs|
    ensures Encode(fs[i..]) == Put(fs[i].id, 2, Put(|fs[i].payload|, 4, [])) + fs[i].payload + Encode(fs[i + 1..])
  {
    hide Put;
    var f, tail := fs[i], Encode(fs[i + 1..]);
    assert fs[i..][0] == f && fs[i..][1..] == fs[i + 1..];
    PutAppends(|f.payload|, 4, f.payload + tail);
    PutAppends(f.id, 2, Put(|f.payload|, 4, f.payload + tail));
    PutAppends(f.id, 2, Put(|f.payload|, 4, []));
    Regroup(Put(f.id, 2, []), Put(|f.payload|, 4, []), f.payload, tail);
  }

  /** Parsing the rest into a bag that already holds some fields. */
  function ParseFrom(m: Fields, s: seq<Byte>): Option<Fields> {
    var fs := Decode(s);
    if fs.None? then None else Gathered(m, fs.value)
  }

  lemma ParseFromDone(m: Fields)
    ensures ParseFrom(m, []) == Some(m)
  {
  }
}
