// Canonical encoding (CanonicalEncoder, src/core.cpp:499): a sequence of (u16 field, u32 length,
// payload). It is uniquely decodable, so identities derived from it address content: two records
// encode alike exactly when every field their digest sees is the same.
module Canonical {
  import opened Types
  import opened StoreTypes
  import opened Bytes
  import opened EvidenceVectors
  import opened Codec

  datatype Field = Field(id: nat, payload: seq<Byte>)

  predicate RepField(f: Field) {
    Fits(f.id, 2) && Fits(|f.payload|, 4)
  }

  predicate RepFields(fs: seq<Field>) {
    forall i :: 0 <= i < |fs| ==> RepField(fs[i])
  }

  function Encode(fs: seq<Field>): seq<Byte> {
    if fs == [] then [] else Put(fs[0].id, 2, Put(|fs[0].payload|, 4, fs[0].payload + Encode(fs[1..])))
  }

  function Decode(s: seq<Byte>): Option<seq<Field>>
    decreases |s|
  {
    if s == [] then Some([])
    else
      var id := Get(s, 2);
      if id.Bad? then None
      else
        var size := Get(id.rest, 4);
        if size.Bad? || |size.rest| < size.value then None
        else
          GetSize(s, 2);
          GetSize(id.rest, 4);
          var more := Decode(size.rest[size.value..]);
          if more.None? then None else Some([Field(id.value, size.rest[..size.value])] + more.value)
  }

  /** Unique decodability. */
  lemma {:induction false} DecodeEncode(fs: seq<Field>)
    requires RepFields(fs)
    ensures Decode(Encode(fs)) == Some(fs)
    decreases |fs|
  {
    hide Get, Put, Fits;
    if fs != [] {
      var f, tail := fs[0], Encode(fs[1..]);
      var inner := Put(|f.payload|, 4, f.payload + tail);
      PutGet(f.id, 2, inner);
      PutGet(|f.payload|, 4, f.payload + tail);
      PutSize(f.id, 2, inner);
      assert (f.payload + tail)[..|f.payload|] == f.payload && (f.payload + tail)[|f.payload|..] == tail;
      DecodeEncode(fs[1..]);
      assert fs == [f] + fs[1..];
    }
  }

  lemma EncodeInjective(a: seq<Field>, b: seq<Field>)
    requires RepFields(a) && RepFields(b) && Encode(a) == Encode(b)
    ensures a == b
  {
    DecodeEncode(a);
    DecodeEncode(b);
  }

  lemma PutInjective(a: nat, b: nat, n: nat)
    requires Fits(a, n) && Fits(b, n) && Put(a, n, []) == Put(b, n, [])
    ensures a == b
  {
    PutGet(a, n, []);
    PutGet(b, n, []);
  }

  // ---------------------------------------------------------------------------------------
  // Field payloads
  // ---------------------------------------------------------------------------------------

  function Num(id: nat, v: nat, n: nat): Field {
    Field(id, Put(v, n, []))
  }

  function Enum<E(==)>(id: nat, table: seq<E>, e: E): Field {
    Num(id, Code(table, e), 2)
  }

  function Nested(id: nat, fs: seq<Field>): Field {
    Field(id, Encode(fs))
  }

  lemma EnumInjective<E>(id: nat, table: seq<E>, a: E, b: E)
    requires a in table && b in table && |table| < 0x1_0000 && Enum(id, table, a) == Enum(id, table, b)
    ensures a == b
  {
    PositionFound(table, a);
    PositionFound(table, b);
    FitsTwo(Code(table, a));
    FitsTwo(Code(table, b));
    PutInjective(Code(table, a), Code(table, b), 2);
  }

  lemma NumRep(id: nat, v: nat, n: nat)
    requires Fits(id, 2) && n <= 32
    ensures RepField(Num(id, v, n))
  {
    PutSize(v, n, []);
    FitsSmall(n);
  }

  lemma FitsSmall(n: nat)
    requires n < 0x1_0000
    ensures Fits(n, 4) && Fits(n, 2)
  {
    assert Pow256(1) == 256 && Pow256(2) == 256 * Pow256(1) && Pow256(3) == 256 * Pow256(2) &&
           Pow256(4) == 256 * Pow256(3);
  }

  /** Every field is well formed and its payload is no longer than the bound. */
  predicate Small(fs: seq<Field>, bound: nat) {
    forall i :: 0 <= i < |fs| ==> RepField(fs[i]) && |fs[i].payload| <= bound
  }

  lemma {:induction false} EncodeSize(fs: seq<Field>, bound: nat)
    requires Small(fs, bound)
    ensures |Encode(fs)| <= |fs| * (6 + bound)
    decreases |fs|
  {
    hide Put, RepField;
    if fs != [] {
      EncodeSize(fs[1..], bound);
      PutSize(|fs[0].payload|, 4, fs[0].payload + Encode(fs[1..]));
      PutSize(fs[0].id, 2, Put(|fs[0].payload|, 4, fs[0].payload + Encode(fs[1..])));
      assert |fs| * (6 + bound) == (|fs| - 1) * (6 + bound) + (6 + bound);
    }
  }

  lemma NumSmall(id: nat, v: nat, n: nat)
    requires id < 0x1_0000 && n <= 32
    ensures RepField(Num(id, v, n)) && |Num(id, v, n).payload| == n
  {
    FitsTwo(id);
    NumRep(id, v, n);
    PutSize(v, n, []);
  }

  lemma NestedSmall(id: nat, fs: seq<Field>, bound: nat, size: nat)
    requires id < 0x1_0000 && Small(fs, bound) && |fs| * (6 + bound) <= size < 0x100_0000
    ensures RepField(Nested(id, fs)) && |Nested(id, fs).payload| <= size
  {
    hide Small, Put;
    FitsTwo(id);
    EncodeSize(fs, bound);
    assert Pow256(1) == 256 && Pow256(2) == 256 * Pow256(1) && Pow256(3) == 256 * Pow256(2) &&
           Pow256(4) == 256 * Pow256(3);
  }

  // ---------------------------------------------------------------------------------------
  // Evidence and authority
  // ---------------------------------------------------------------------------------------

  function EntryFields(e: seq<EvidenceEntry>): (r: seq<Field>)
    ensures |r| == |e|
    ensures forall i :: 0 <= i < |e| ==> r[i] == Num(e[i].field, e[i].value, 8)
  {
    seq(|e|, i requires 0 <= i < |e| => Num(e[i].field, e[i].value, 8))
  }

  function EvidenceFields(e: seq<EvidenceEntry>): seq<Field> {
    [Num(1, |e|, 4)] + EntryFields(e)
  }

  predicate SmallEvidence(e: seq<EvidenceEntry>) {
    |e| < 0x1_0000 && forall i :: 0 <= i < |e| ==> e[i].field < 0x1_0000 && Fits(e[i].value, 8)
  }

  lemma EvidenceInjective(a: seq<EvidenceEntry>, b: seq<EvidenceEntry>)
    requires SmallEvidence(a) && SmallEvidence(b) && EvidenceFields(a) == EvidenceFields(b)
    ensures a == b
  {
    hide Put, Fits;
    assert |EvidenceFields(a)| == |a| + 1 && |EvidenceFields(b)| == |b| + 1;
    forall i | 0 <= i < |a| ensures a[i] == b[i] {
      assert EvidenceFields(a)[i + 1] == EvidenceFields(b)[i + 1];
      PutInjective(a[i].value, b[i].value, 8);
    }
  }

  lemma EvidenceSmall(e: seq<EvidenceEntry>)
    requires SmallEvidence(e)
    ensures Small(EvidenceFields(e), 8)
  {
    hide Put, Fits, Num, RepField;
    forall i | 0 <= i < |EvidenceFields(e)|
      ensures RepField(EvidenceFields(e)[i]) && |EvidenceFields(e)[i].payload| <= 8
    {
      if i == 0 {
        NumSmall(1, |e|, 4);
      } else {
        NumSmall(e[i - 1].field, e[i - 1].value, 8);
      }
    }
  }

  function ScopeFields(s: Scope): seq<Field> {
    [Num(1, ScopeCode(s), 2), Num(2, ScopeSubject(s), 8)]
  }

  lemma ScopeInjective(a: Scope, b: Scope)
    requires a.HasSubject() && b.HasSubject() && Fits(ScopeSubject(a), 8) && Fits(ScopeSubject(b), 8)
    requires ScopeFields(a) == ScopeFields(b)
    ensures a == b
  {
    hide Put, Fits;
    assert ScopeFields(a)[0] == ScopeFields(b)[0] && ScopeFields(a)[1] == ScopeFields(b)[1];
    FitsTwo(ScopeCode(a));
    FitsTwo(ScopeCode(b));
    PutInjective(ScopeCode(a), ScopeCode(b), 2);
    PutInjective(ScopeSubject(a), ScopeSubject(b), 8);
  }

  lemma ScopeSmall(s: Scope)
    ensures Small(ScopeFields(s), 8)
  {
    hide Num, RepField;
    NumSmall(1, ScopeCode(s), 2);
    NumSmall(2, ScopeSubject(s), 8);
  }

  function AuthorityFields(a: Authority): seq<Field> {
    [Num(1, a.publisher, 8), Num(2, a.boot, 8), Num(3, a.epoch, 8), Num(4, a.attempt, 8),
     Nested(5, ScopeFields(a.scope)), Num(6, OrZero(a.expectedLineage), 8), Num(7, OrZero(a.expectedStore), 8)]
  }

  lemma AuthorityInjective(a: Authority, b: Authority)
    requires RepAuthority(a) && RepAuthority(b) && AuthorityFields(a) == AuthorityFields(b)
    ensures CanonAuthority(a) == CanonAuthority(b)
  {
    hide Put, Fits, Encode, ScopeFields;
    var fa, fb := AuthorityFields(a), AuthorityFields(b);
    assert fa[0] == fb[0] && fa[1] == fb[1] && fa[2] == fb[2] && fa[3] == fb[3] && fa[4] == fb[4] && fa[5] == fb[5] &&
           fa[6] == fb[6];
    PutInjective(a.publisher, b.publisher, 8);
    PutInjective(a.boot, b.boot, 8);
    PutInjective(a.epoch, b.epoch, 8);
    PutInjective(a.attempt, b.attempt, 8);
    ScopeSmall(a.scope);
    ScopeSmall(b.scope);
    EncodeInjective(ScopeFields(a.scope), ScopeFields(b.scope));
    ScopeInjective(a.scope, b.scope);
    PutInjective(OrZero(a.expectedLineage), OrZero(b.expectedLineage), 8);
    PutInjective(OrZero(a.expectedStore), OrZero(b.expectedStore), 8);
  }

  lemma AuthoritySmall(a: Authority)
    ensures Small(AuthorityFields(a), 32)
  {
    hide Num, Nested, RepField, ScopeFields;
    NumSmall(1, a.publisher, 8);
    NumSmall(2, a.boot, 8);
    NumSmall(3, a.epoch, 8);
    NumSmall(4, a.attempt, 8);
    ScopeSmall(a.scope);
    ScopeCount(a.scope);
    NestedSmall(5, ScopeFields(a.scope), 8, 28);
    NumSmall(6, OrZero(a.expectedLineage), 8);
    NumSmall(7, OrZero(a.expectedStore), 8);
  }

  lemma ScopeCount(s: Scope)
    ensures |ScopeFields(s)| == 2
  {
  }

  // ---------------------------------------------------------------------------------------
  // Bindings: only the present ones are encoded, each under its own field number
  // ---------------------------------------------------------------------------------------

  function PathFields(b: PathBinding): seq<Field> {
    [Num(1, b.path, 8), Num(2, b.generation, 8), Num(3, b.decision, 32)]
  }

  lemma PathInjective(a: PathBinding, b: PathBinding)
    requires RepPath(a) && RepPath(b) && PathFields(a) == PathFields(b)
    ensures a == b
  {
    hide Put, Fits;
    assert PathFields(a)[0] == PathFields(b)[0];
    assert PathFields(a)[1] == PathFields(b)[1];
    assert PathFields(a)[2] == PathFields(b)[2];
    PutInjective(a.path, b.path, 8);
    PutInjective(a.generation, b.generation, 8);
    PutInjective(a.decision, b.decision, 32);
  }

  function PlannerFields(b: PlannerBinding): seq<Field> {
    [Num(1, b.request, 8), Num(2, b.generation, 8), Num(3, b.rank, 4), Num(4, b.plan, 32), Num(5, b.selectedPath, 8)]
  }

  lemma PlannerInjective(a: PlannerBinding, b: PlannerBinding)
    requires RepPlanner(a) && RepPlanner(b) && PlannerFields(a) == PlannerFields(b)
    ensures a == b
  {
    hide Put, Fits;
    assert PlannerFields(a)[0] == PlannerFields(b)[0];
    assert PlannerFields(a)[1] == PlannerFields(b)[1];
    assert PlannerFields(a)[2] == PlannerFields(b)[2];
    assert PlannerFields(a)[3] == PlannerFields(b)[3];
    assert PlannerFields(a)[4] == PlannerFields(b)[4];
    PutInjective(a.request, b.request, 8);
    PutInjective(a.generation, b.generation, 8);
    PutInjective(a.rank, b.rank, 4);
    PutInjective(a.plan, b.plan, 32);
    PutInjective(a.selectedPath, b.selectedPath, 8);
  }

  function EcmpFields(b: EcmpBinding): seq<Field> {
    [Num(1, b.group, 8), Num(2, b.membership, 8), Num(3, b.assignment, 8)]
  }

  lemma EcmpInjective(a: EcmpBinding, b: EcmpBinding)
    requires RepEcmp(a) && RepEcmp(b) && EcmpFields(a) == EcmpFields(b)
    ensures a == b
  {
    hide Put, Fits;
    assert EcmpFields(a)[0] == EcmpFields(b)[0];
    assert EcmpFields(a)[1] == EcmpFields(b)[1];
    assert EcmpFields(a)[2] == EcmpFields(b)[2];
    PutInjective(a.group, b.group, 8);
    PutInjective(a.membership, b.membership, 8);
    PutInjective(a.assignment, b.assignment, 8);
  }

  function WeightedFields(b: WeightedBinding): seq<Field> {
    [Num(1, b.set_, 8), Num(2, b.policy, 8), Num(3, b.assignment, 8)]
  }

  lemma WeightedInjective(a: WeightedBinding, b: WeightedBinding)
    requires RepWeighted(a) && RepWeighted(b) && WeightedFields(a) == WeightedFields(b)
    ensures a == b
  {
    hide Put, Fits;
    assert WeightedFields(a)[0] == WeightedFields(b)[0];
    assert WeightedFields(a)[1] == WeightedFields(b)[1];
    assert WeightedFields(a)[2] == WeightedFields(b)[2];
    PutInjective(a.set_, b.set_, 8);
    PutInjective(a.policy, b.policy, 8);
    PutInjective(a.assignment, b.assignment, 8);
  }

  function AdaptationFields(b: AdaptationBinding): seq<Field> {
    [Num(1, b.decision, 8), Num(2, b.generation, 8), Num(3, b.policy, 8), Num(4, b.evidence, 8), Num(5, b.digest, 32)]
  }

  lemma AdaptationInjective(a: AdaptationBinding, b: AdaptationBinding)
    requires RepAdaptation(a) && RepAdaptation(b) && AdaptationFields(a) == AdaptationFields(b)
    ensures a == b
  {
    hide Put, Fits;
    assert AdaptationFields(a)[0] == AdaptationFields(b)[0];
    assert AdaptationFields(a)[1] == AdaptationFields(b)[1];
    assert AdaptationFields(a)[2] == AdaptationFields(b)[2];
    assert AdaptationFields(a)[3] == AdaptationFields(b)[3];
    assert AdaptationFields(a)[4] == AdaptationFields(b)[4];
    PutInjective(a.decision, b.decision, 8);
    PutInjective(a.generation, b.generation, 8);
    PutInjective(a.policy, b.policy, 8);
    PutInjective(a.evidence, b.evidence, 8);
    PutInjective(a.digest, b.digest, 32);
  }

  function ConvergenceFields(b: ConvergenceBinding): seq<Field> {
    [Num(1, b.plan, 8), Num(2, b.generation, 8), Num(3, b.step, 8), Num(4, b.completion, 32)]
  }

  lemma ConvergenceInjective(a: ConvergenceBinding, b: ConvergenceBinding)
    requires RepConvergence(a) && RepConvergence(b) && ConvergenceFields(a) == ConvergenceFields(b)
    ensures a == b
  {
    hide Put, Fits;
    assert ConvergenceFields(a)[0] == ConvergenceFields(b)[0];
    assert ConvergenceFields(a)[1] == ConvergenceFields(b)[1];
    assert ConvergenceFields(a)[2] == ConvergenceFields(b)[2];
    assert ConvergenceFields(a)[3] == ConvergenceFields(b)[3];
    PutInjective(a.plan, b.plan, 8);
    PutInjective(a.generation, b.generation, 8);
    PutInjective(a.step, b.step, 8);
    PutInjective(a.completion, b.completion, 32);
  }

  function PolicyFields(policy: nat): seq<Field> {
    [Num(1, policy, 8)]
  }

  function PathField(b: Bindings): seq<Field> {
    if b.path.Some? then [Nested(1, PathFields(b.path.value))] else []
  }

  function PlannerField(b: Bindings): seq<Field> {
    if b.planner.Some? then [Nested(2, PlannerFields(b.planner.value))] else []
  }

  function EcmpField(b: Bindings): seq<Field> {
    if b.ecmp.Some? then [Nested(3, EcmpFields(b.ecmp.value))] else []
  }

  function WeightedField(b: Bindings): seq<Field> {
    if b.weighted.Some? then [Nested(4, WeightedFields(b.weighted.value))] else []
  }

  function AdaptationField(b: Bindings): seq<Field> {
    if b.adaptation.Some? then [Nested(5, AdaptationFields(b.adaptation.value))] else []
  }

  function ConvergenceField(b: Bindings): seq<Field> {
    if b.convergence.Some? then [Nested(6, ConvergenceFields(b.convergence.value))] else []
  }

  function PolicyField(b: Bindings): seq<Field> {
    if b.policy.Some? then [Nested(7, PolicyFields(b.policy.value))] else []
  }

  predicate AllAfter(fs: seq<Field>, id: nat) {
    forall i :: 0 <= i < |fs| ==> fs[i].id > id
  }

  /** At most one field with this number. */
  predicate OneOf(fs: seq<Field>, id: nat) {
    fs == [] || (|fs| == 1 && fs[0].id == id)
  }

  lemma HasHead(a: seq<Field>, tail: seq<Field>, id: nat)
    requires OneOf(a, id) && AllAfter(tail, id)
    ensures |a| == if a + tail != [] && (a + tail)[0].id == id then 1 else 0
    ensures (a + tail)[..|a|] == a && (a + tail)[|a|..] == tail
  {
  }

  /** Two lists that start with at most one field of a number and go on with greater ones agree
      piece by piece. */
  lemma SplitUnique(a: seq<Field>, aTail: seq<Field>, b: seq<Field>, bTail: seq<Field>, id: nat)
    requires OneOf(a, id) && OneOf(b, id) && AllAfter(aTail, id) && AllAfter(bTail, id)
    requires a + aTail == b + bTail
    ensures a == b && aTail == bTail
  {
    HasHead(a, aTail, id);
    HasHead(b, bTail, id);
  }

  function From7(b: Bindings): seq<Field> {
    PolicyField(b)
  }

  function From6(b: Bindings): seq<Field> {
    ConvergenceField(b) + From7(b)
  }

  function From5(b: Bindings): seq<Field> {
    AdaptationField(b) + From6(b)
  }

  function From4(b: Bindings): seq<Field> {
    WeightedField(b) + From5(b)
  }

  function From3(b: Bindings): seq<Field> {
    EcmpField(b) + From4(b)
  }

  function From2(b: Bindings): seq<Field> {
    PlannerField(b) + From3(b)
  }

  function BindingFields(b: Bindings): seq<Field> {
    PathField(b) + From2(b)
  }

  lemma PieceAfter(a: seq<Field>, tail: seq<Field>, id: nat, next: nat)
    requires OneOf(a, next) && AllAfter(tail, next) && id < next
    ensures AllAfter(a + tail, id)
  {
  }

  lemma BindingsAreSingle(b: Bindings)
    ensures OneOf(PathField(b), 1) && OneOf(PlannerField(b), 2) && OneOf(EcmpField(b), 3) && OneOf(WeightedField(b), 4)
    ensures OneOf(AdaptationField(b), 5) && OneOf(ConvergenceField(b), 6) && OneOf(PolicyField(b), 7)
    ensures AllAfter(PolicyField(b), 6)
  {
    hide Encode, PathFields, PlannerFields, EcmpFields, WeightedFields, AdaptationFields, ConvergenceFields,
      PolicyFields;
  }

  lemma BindingsAscend(b: Bindings)
    ensures AllAfter(From2(b), 1) && AllAfter(From3(b), 2) && AllAfter(From4(b), 3) && AllAfter(From5(b), 4)
    ensures AllAfter(From6(b), 5) && AllAfter(From7(b), 6)
    ensures OneOf(PathField(b), 1) && OneOf(PlannerField(b), 2) && OneOf(EcmpField(b), 3) && OneOf(WeightedField(b), 4)
    ensures OneOf(AdaptationField(b), 5) && OneOf(ConvergenceField(b), 6) && OneOf(PolicyField(b), 7)
  {
    hide PathField, PlannerField, EcmpField, WeightedField, AdaptationField, ConvergenceField, PolicyField, OneOf,
      AllAfter;
    BindingsAreSingle(b);
    PieceAfter(ConvergenceField(b), From7(b), 5, 6);
    PieceAfter(AdaptationField(b), From6(b), 4, 5);
    PieceAfter(WeightedField(b), From5(b), 3, 4);
    PieceAfter(EcmpField(b), From4(b), 2, 3);
    PieceAfter(PlannerField(b), From3(b), 1, 2);
  }

  lemma BindingPieces(a: Bindings, b: Bindings)
    requires BindingFields(a) == BindingFields(b)
    ensures PathField(a) == PathField(b) && PlannerField(a) == PlannerField(b) && EcmpField(a) == EcmpField(b)
    ensures WeightedField(a) == WeightedField(b) && AdaptationField(a) == AdaptationField(b)
    ensures ConvergenceField(a) == ConvergenceField(b) && PolicyField(a) == PolicyField(b)
  {
    hide PathField, PlannerField, EcmpField, WeightedField, AdaptationField, ConvergenceField, PolicyField, OneOf,
      AllAfter;
    BindingsAscend(a);
    BindingsAscend(b);
    SplitUnique(PathField(a), From2(a), PathField(b), From2(b), 1);
    SplitUnique(PlannerField(a), From3(a), PlannerField(b), From3(b), 2);
    SplitUnique(EcmpField(a), From4(a), EcmpField(b), From4(b), 3);
    SplitUnique(WeightedField(a), From5(a), WeightedField(b), From5(b), 4);
    SplitUnique(AdaptationField(a), From6(a), AdaptationField(b), From6(b), 5);
    SplitUnique(ConvergenceField(a), From7(a), ConvergenceField(b), From7(b), 6);
  }

  lemma SameNested(id: nat, a: seq<Field>, b: seq<Field>, bound: nat)
    requires [Nested(id, a)] == [Nested(id, b)] && Small(a, bound) && Small(b, bound)
    ensures a == b
  {
    hide Encode, RepField;
    assert [Nested(id, a)][0] == [Nested(id, b)][0];
    EncodeInjective(a, b);
  }

  lemma NumsSmall(fs: seq<Field>)
    requires forall i :: 0 <= i < |fs| ==> exists id, v, n :: id < 0x1_0000 && n <= 32 && fs[i] == Num(id, v, n)
    ensures Small(fs, 32)
  {
    hide Num, RepField;
    forall i | 0 <= i < |fs| ensures RepField(fs[i]) && |fs[i].payload| <= 32 {
      var id, v, n :| id < 0x1_0000 && n <= 32 && fs[i] == Num(id, v, n);
      NumSmall(id, v, n);
    }
  }

  lemma PathsSmall(b: Bindings)
    ensures b.path.Some? ==> Small(PathFields(b.path.value), 32)
    ensures b.planner.Some? ==> Small(PlannerFields(b.planner.value), 32)
    ensures b.ecmp.Some? ==> Small(EcmpFields(b.ecmp.value), 32)
    ensures b.weighted.Some? ==> Small(WeightedFields(b.weighted.value), 32)
    ensures b.adaptation.Some? ==> Small(AdaptationFields(b.adaptation.value), 32)
    ensures b.convergence.Some? ==> Small(ConvergenceFields(b.convergence.value), 32)
    ensures b.policy.Some? ==> Small(PolicyFields(b.policy.value), 32)
  {
    hide Num, Small;
    if b.path.Some? { NumsSmall(PathFields(b.path.value)); }
    if b.planner.Some? { NumsSmall(PlannerFields(b.planner.value)); }
    if b.ecmp.Some? { NumsSmall(EcmpFields(b.ecmp.value)); }
    if b.weighted.Some? { NumsSmall(WeightedFields(b.weighted.value)); }
    if b.adaptation.Some? { NumsSmall(AdaptationFields(b.adaptation.value)); }
    if b.convergence.Some? { NumsSmall(ConvergenceFields(b.convergence.value)); }
    if b.policy.Some? { NumsSmall(PolicyFields(b.policy.value)); }
  }

  /** For every combination of present bindings the encoding determines them. */
  lemma BindingsInjective(a: Bindings, b: Bindings)
    requires RepBindings(a) && RepBindings(b) && BindingFields(a) == BindingFields(b)
    ensures a == b
  {
    hide BindingFields, Nested, PathFields, PlannerFields, EcmpFields, WeightedFields, AdaptationFields,
      ConvergenceFields, Small, RepPath, RepPlanner, RepEcmp, RepWeighted, RepAdaptation, RepConvergence, Fits;
    BindingPieces(a, b);
    PathsSmall(a);
    PathsSmall(b);
    if a.path.Some? && b.path.Some? {
      SameNested(1, PathFields(a.path.value), PathFields(b.path.value), 32);
      PathInjective(a.path.value, b.path.value);
    }
    if a.planner.Some? && b.planner.Some? {
      SameNested(2, PlannerFields(a.planner.value), PlannerFields(b.planner.value), 32);
      PlannerInjective(a.planner.value, b.planner.value);
    }
    if a.ecmp.Some? && b.ecmp.Some? {
      SameNested(3, EcmpFields(a.ecmp.value), EcmpFields(b.ecmp.value), 32);
      EcmpInjective(a.ecmp.value, b.ecmp.value);
    }
    if a.weighted.Some? && b.weighted.Some? {
      SameNested(4, WeightedFields(a.weighted.value), WeightedFields(b.weighted.value), 32);
      WeightedInjective(a.weighted.value, b.weighted.value);
    }
    if a.adaptation.Some? && b.adaptation.Some? {
      SameNested(5, AdaptationFields(a.adaptation.value), AdaptationFields(b.adaptation.value), 32);
      AdaptationInjective(a.adaptation.value, b.adaptation.value);
    }
    if a.convergence.Some? && b.convergence.Some? {
      SameNested(6, ConvergenceFields(a.convergence.value), ConvergenceFields(b.convergence.value), 32);
      ConvergenceInjective(a.convergence.value, b.convergence.value);
    }
    if a.policy.Some? && b.policy.Some? {
      SameNested(7, PolicyFields(a.policy.value), PolicyFields(b.policy.value), 32);
      PolicyInjective(a.policy.value, b.policy.value);
    }
  }

  lemma PolicyInjective(a: nat, b: nat)
    requires Fits(a, 8) && Fits(b, 8) && PolicyFields(a) == PolicyFields(b)
    ensures a == b
  {
    hide Put, Fits;
    assert PolicyFields(a)[0] == PolicyFields(b)[0];
    PutInjective(a, b, 8);
  }

  lemma BindingSmall(b: Bindings)
    ensures Small(BindingFields(b), 190) && |BindingFields(b)| <= 7
  {
    hide Num, Nested, RepField, Small, PathFields, PlannerFields, EcmpFields, WeightedFields, AdaptationFields,
      ConvergenceFields, PolicyFields;
    PathsSmall(b);
    BindingCounts(b);
    NestedPieces(b);
    SmallConcat(ConvergenceField(b), From7(b), 190);
    SmallConcat(AdaptationField(b), From6(b), 190);
    SmallConcat(WeightedField(b), From5(b), 190);
    SmallConcat(EcmpField(b), From4(b), 190);
    SmallConcat(PlannerField(b), From3(b), 190);
    SmallConcat(PathField(b), From2(b), 190);
  }

  lemma BindingCounts(b: Bindings)
    ensures b.path.Some? ==> |PathFields(b.path.value)| <= 5
    ensures b.planner.Some? ==> |PlannerFields(b.planner.value)| <= 5
    ensures b.ecmp.Some? ==> |EcmpFields(b.ecmp.value)| <= 5
    ensures b.weighted.Some? ==> |WeightedFields(b.weighted.value)| <= 5
    ensures b.adaptation.Some? ==> |AdaptationFields(b.adaptation.value)| <= 5
    ensures b.convergence.Some? ==> |ConvergenceFields(b.convergence.value)| <= 5
    ensures b.policy.Some? ==> |PolicyFields(b.policy.value)| <= 5
  {
  }

  lemma SmallConcat(a: seq<Field>, b: seq<Field>, bound: nat)
    requires Small(a, bound) && Small(b, bound)
    ensures Small(a + b, bound)
  {
    hide RepField;
  }

  lemma NestedPieces(b: Bindings)
    ensures Small(PathField(b), 190) && Small(PlannerField(b), 190) && Small(EcmpField(b), 190)
    ensures Small(WeightedField(b), 190) && Small(AdaptationField(b), 190) && Small(ConvergenceField(b), 190)
    ensures Small(PolicyField(b), 190)
  {
    hide Num, Nested, RepField, PathFields, PlannerFields, EcmpFields, WeightedFields, AdaptationFields,
      ConvergenceFields, PolicyFields;
    PathsSmall(b);
    BindingCounts(b);
    if b.path.Some? { NestedSmall(1, PathFields(b.path.value), 32, 190); }
    if b.planner.Some? { NestedSmall(2, PlannerFields(b.planner.value), 32, 190); }
    if b.ecmp.Some? { NestedSmall(3, EcmpFields(b.ecmp.value), 32, 190); }
    if b.weighted.Some? { NestedSmall(4, WeightedFields(b.weighted.value), 32, 190); }
    if b.adaptation.Some? { NestedSmall(5, AdaptationFields(b.adaptation.value), 32, 190); }
    if b.convergence.Some? { NestedSmall(6, ConvergenceFields(b.convergence.value), 32, 190); }
    if b.policy.Some? { NestedSmall(7, PolicyFields(b.policy.value), 32, 190); }
  }

  // ---------------------------------------------------------------------------------------
  // Records (node_core_digest), derivations (compute_derivation_id), edge identities
  // ---------------------------------------------------------------------------------------

  const GRAPH_VERSION: nat := 1

  function RootCode(r: Option<RootReason>): nat {
    if r.Some? then Code(ROOTS, r.value) else 0
  }

  predicate RepCore(c: NodeCore) {
    && Fits(c.lineage, 8) && Fits(c.route, 8) && Fits(c.generation, 8) && Fits(c.stateDigest, 32)
    && SmallEvidence(c.evidence) && RepAuthority(c.authority) && RepBindings(c.bindings)
    && Fits(OrZero(c.corrects), 8) && Fits(OrZero(c.compacted), 32)
  }

  function CoreScalars(c: NodeCore): seq<Field> {
    [Num(1, GRAPH_VERSION, 4), Num(2, c.lineage, 8), Enum(3, NODE_KINDS, c.kind), Num(4, c.route, 8),
     Num(5, c.generation, 8), Num(6, c.stateDigest, 32), Enum(7, REASONS, c.reason), Enum(8, SOURCES, c.source),
     Num(9, RootCode(c.rootReason), 2)]
  }

  function CoreParts(c: NodeCore): seq<Field> {
    [Nested(10, EvidenceFields(c.evidence)), Nested(11, AuthorityFields(c.authority)),
     Nested(12, BindingFields(c.bindings)), Num(13, OrZero(c.corrects), 8), Num(14, OrZero(c.compacted), 32)]
  }

  function CoreFields(c: NodeCore): seq<Field> {
    CoreScalars(c) + CoreParts(c)
  }

  lemma RootCodeInjective(a: Option<RootReason>, b: Option<RootReason>)
    requires RootCode(a) == RootCode(b)
    ensures a == b
  {
    if a.Some? {
      KnownRoot(a.value);
      PositionFound(ROOTS, a.value);
    }
    if b.Some? {
      KnownRoot(b.value);
      PositionFound(ROOTS, b.value);
    }
  }

  lemma RootCodeSmall(a: Option<RootReason>)
    ensures RootCode(a) < 0x1_0000
  {
    if a.Some? {
      KnownRoot(a.value);
      PositionFound(ROOTS, a.value);
    }
  }

  lemma ScalarsInjective(a: NodeCore, b: NodeCore)
    requires RepCore(a) && RepCore(b) && CoreScalars(a) == CoreScalars(b)
    ensures a.lineage == b.lineage && a.kind == b.kind && a.route == b.route && a.generation == b.generation
    ensures a.stateDigest == b.stateDigest && a.reason == b.reason && a.source == b.source
    ensures a.rootReason == b.rootReason
  {
    hide Put, Fits, Code, RootCode, SmallEvidence, RepAuthority, RepBindings;
    var fa, fb := CoreScalars(a), CoreScalars(b);
    assert fa[1] == fb[1] && fa[2] == fb[2] && fa[3] == fb[3] && fa[4] == fb[4] && fa[5] == fb[5] && fa[6] == fb[6] &&
           fa[7] == fb[7] && fa[8] == fb[8];
    PutInjective(a.lineage, b.lineage, 8);
    KnownKind(a.kind);
    KnownKind(b.kind);
    EnumInjective(3, NODE_KINDS, a.kind, b.kind);
    PutInjective(a.route, b.route, 8);
    PutInjective(a.generation, b.generation, 8);
    PutInjective(a.stateDigest, b.stateDigest, 32);
    KnownReason(a.reason);
    KnownReason(b.reason);
    EnumInjective(7, REASONS, a.reason, b.reason);
    KnownSource(a.source);
    KnownSource(b.source);
    EnumInjective(8, SOURCES, a.source, b.source);
    RootCodeSmall(a.rootReason);
    RootCodeSmall(b.rootReason);
    FitsTwo(RootCode(a.rootReason));
    FitsTwo(RootCode(b.rootReason));
    PutInjective(RootCode(a.rootReason), RootCode(b.rootReason), 2);
    RootCodeInjective(a.rootReason, b.rootReason);
  }

  lemma SmallIsRep(fs: seq<Field>, bound: nat)
    requires Small(fs, bound)
    ensures RepFields(fs)
  {
    hide RepField;
  }

  lemma SharedPartsInjective(ea: seq<EvidenceEntry>, eb: seq<EvidenceEntry>, a: Authority, b: Authority, id: nat,
                             id': nat)
    requires SmallEvidence(ea) && SmallEvidence(eb) && RepAuthority(a) && RepAuthority(b)
    requires Nested(id, EvidenceFields(ea)) == Nested(id, EvidenceFields(eb))
    requires Nested(id', AuthorityFields(a)) == Nested(id', AuthorityFields(b))
    ensures ea == eb && CanonAuthority(a) == CanonAuthority(b)
  {
    hide Encode, EvidenceFields, AuthorityFields, SmallEvidence, RepAuthority, Small, RepFields;
    EvidenceSmall(ea);
    EvidenceSmall(eb);
    SmallIsRep(EvidenceFields(ea), 8);
    SmallIsRep(EvidenceFields(eb), 8);
    EncodeInjective(EvidenceFields(ea), EvidenceFields(eb));
    EvidenceInjective(ea, eb);
    AuthoritySmall(a);
    AuthoritySmall(b);
    SmallIsRep(AuthorityFields(a), 32);
    SmallIsRep(AuthorityFields(b), 32);
    EncodeInjective(AuthorityFields(a), AuthorityFields(b));
    AuthorityInjective(a, b);
  }

  lemma PartsInjective(a: NodeCore, b: NodeCore)
    requires RepCore(a) && RepCore(b) && CoreParts(a) == CoreParts(b)
    ensures a.evidence == b.evidence && CanonAuthority(a.authority) == CanonAuthority(b.authority)
    ensures a.bindings == b.bindings && CanonId(a.corrects) == CanonId(b.corrects)
    ensures CanonId(a.compacted) == CanonId(b.compacted)
  {
    hide Put, Fits, Encode, EvidenceFields, AuthorityFields, BindingFields, SmallEvidence, RepAuthority, RepBindings,
      Small, RepFields;
    var fa, fb := CoreParts(a), CoreParts(b);
    assert fa[0] == fb[0] && fa[1] == fb[1] && fa[2] == fb[2] && fa[3] == fb[3] && fa[4] == fb[4];
    SharedPartsInjective(a.evidence, b.evidence, a.authority, b.authority, 10, 11);
    BindingSmall(a.bindings);
    BindingSmall(b.bindings);
    SmallIsRep(BindingFields(a.bindings), 190);
    SmallIsRep(BindingFields(b.bindings), 190);
    EncodeInjective(BindingFields(a.bindings), BindingFields(b.bindings));
    BindingsInjective(a.bindings, b.bindings);
    PutInjective(OrZero(a.corrects), OrZero(b.corrects), 8);
    PutInjective(OrZero(a.compacted), OrZero(b.compacted), 32);
  }

  lemma CoreIsRep(c: NodeCore)
    requires RepCore(c)
    ensures RepFields(CoreFields(c))
  {
    hide Num, Nested, Enum, RepField, EvidenceFields, AuthorityFields, BindingFields, SmallEvidence, RepAuthority,
      RepBindings, Small, Fits, RootCode, Code;
    NumSmall(1, GRAPH_VERSION, 4);
    NumSmall(2, c.lineage, 8);
    EnumSmall(3, NODE_KINDS, c.kind);
    NumSmall(4, c.route, 8);
    NumSmall(5, c.generation, 8);
    NumSmall(6, c.stateDigest, 32);
    EnumSmall(7, REASONS, c.reason);
    EnumSmall(8, SOURCES, c.source);
    NumSmall(9, RootCode(c.rootReason), 2);
    SharedPartsSmall(c.evidence, c.authority, 10, 11);
    BindingSmall(c.bindings);
    NestedSmall(12, BindingFields(c.bindings), 190, 1372);
    NumSmall(13, OrZero(c.corrects), 8);
    NumSmall(14, OrZero(c.compacted), 32);
  }

  lemma EnumSmall<E>(id: nat, table: seq<E>, e: E)
    requires id < 0x1_0000
    ensures RepField(Enum(id, table, e))
  {
    hide Num, RepField, Code;
    NumSmall(id, Code(table, e), 2);
  }

  lemma SharedPartsSmall(e: seq<EvidenceEntry>, a: Authority, id: nat, id': nat)
    requires SmallEvidence(e) && id < 0x1_0000 && id' < 0x1_0000
    ensures RepField(Nested(id, EvidenceFields(e))) && RepField(Nested(id', AuthorityFields(a)))
  {
    hide Nested, RepField, Small, Num, Fits;
    EvidenceSmall(e);
    assert |EvidenceFields(e)| == |e| + 1;
    NestedSmall(id, EvidenceFields(e), 8, 0xF_0000);
    AuthoritySmall(a);
    assert |AuthorityFields(a)| == 7;
    NestedSmall(id', AuthorityFields(a), 32, 266);
  }

  /** Content addressing of records: two representable cores encode alike exactly when every
      field the digest sees is the same. */
  lemma CoreEncodingInjective(a: NodeCore, b: NodeCore)
    requires RepCore(a) && RepCore(b)
    ensures Encode(CoreFields(a)) == Encode(CoreFields(b)) <==> CanonCore(a) == CanonCore(b)
  {
    hide Put, Fits, Encode, CoreScalars, CoreParts, RepCore, RepFields;
    if Encode(CoreFields(a)) == Encode(CoreFields(b)) {
      CoreIsRep(a);
      CoreIsRep(b);
      EncodeInjective(CoreFields(a), CoreFields(b));
      CoreSizes(a);
      CoreSizes(b);
      assert CoreFields(a)[..9] == CoreScalars(a) && CoreFields(a)[9..] == CoreParts(a);
      assert CoreFields(b)[..9] == CoreScalars(b) && CoreFields(b)[9..] == CoreParts(b);
      ScalarsInjective(a, b);
      PartsInjective(a, b);
    } else {
      CanonCoreFields(a);
      CanonCoreFields(b);
    }
  }

  lemma CoreSizes(c: NodeCore)
    ensures |CoreScalars(c)| == 9 && |CoreParts(c)| == 5
  {
    hide Put, Encode;
  }

  /** The encoding depends on the canonical content only. */
  lemma CanonCoreFields(c: NodeCore)
    ensures CoreFields(CanonCore(c)) == CoreFields(c)
  {
    hide Put, Encode;
    CanonAuthorityFields(c.authority);
  }

  lemma CanonAuthorityFields(a: Authority)
    ensures AuthorityFields(CanonAuthority(a)) == AuthorityFields(a)
  {
    hide Put, Encode;
  }

  function DerivationFields(e: Edge): seq<Field> {
    [Num(1, GRAPH_VERSION, 4), Num(2, e.lineage, 8), Enum(3, EDGE_TYPES, e.etype), Num(4, e.from, 8), Num(5, e.to, 8),
     Num(6, e.predecessor, 8), Num(7, e.successor, 8), Enum(8, REASONS, e.reason), Enum(9, SOURCES, e.source),
     Nested(10, EvidenceFields(e.evidence)), Nested(11, AuthorityFields(e.authority))]
  }

  predicate RepDerivation(e: Edge) {
    && Fits(e.lineage, 8) && Fits(e.from, 8) && Fits(e.to, 8) && Fits(e.predecessor, 8) && Fits(e.successor, 8)
    && SmallEvidence(e.evidence) && RepAuthority(e.authority)
  }

  lemma DerivationIsRep(e: Edge)
    requires RepDerivation(e)
    ensures RepFields(DerivationFields(e))
  {
    hide Num, Nested, Enum, RepField, EvidenceFields, AuthorityFields, SmallEvidence, RepAuthority, Fits, Code;
    NumSmall(1, GRAPH_VERSION, 4);
    NumSmall(2, e.lineage, 8);
    EnumSmall(3, EDGE_TYPES, e.etype);
    NumSmall(4, e.from, 8);
    NumSmall(5, e.to, 8);
    NumSmall(6, e.predecessor, 8);
    NumSmall(7, e.successor, 8);
    EnumSmall(8, REASONS, e.reason);
    EnumSmall(9, SOURCES, e.source);
    SharedPartsSmall(e.evidence, e.authority, 10, 11);
  }

  /** Content addressing of derivations: everything but the two derived identities. */
  lemma DerivationEncodingInjective(a: Edge, b: Edge)
    requires RepDerivation(a) && RepDerivation(b)
    ensures Encode(DerivationFields(a)) == Encode(DerivationFields(b)) <==> CanonEdge(a) == CanonEdge(b)
  {
    hide Put, Fits, Encode, EvidenceFields, AuthorityFields, SmallEvidence, RepAuthority, RepFields, Code;
    if Encode(DerivationFields(a)) == Encode(DerivationFields(b)) {
      var fa, fb := DerivationFields(a), DerivationFields(b);
      DerivationIsRep(a);
      DerivationIsRep(b);
      EncodeInjective(fa, fb);
      assert fa[1] == fb[1] && fa[2] == fb[2] && fa[3] == fb[3] && fa[4] == fb[4] && fa[5] == fb[5] && fa[6] == fb[6] &&
             fa[7] == fb[7] && fa[8] == fb[8] && fa[9] == fb[9] && fa[10] == fb[10];
      PutInjective(a.lineage, b.lineage, 8);
      KnownEdgeType(a.etype);
      KnownEdgeType(b.etype);
      EnumInjective(3, EDGE_TYPES, a.etype, b.etype);
      PutInjective(a.from, b.from, 8);
      PutInjective(a.to, b.to, 8);
      PutInjective(a.predecessor, b.predecessor, 8);
      PutInjective(a.successor, b.successor, 8);
      KnownReason(a.reason);
      KnownReason(b.reason);
      EnumInjective(8, REASONS, a.reason, b.reason);
      KnownSource(a.source);
      KnownSource(b.source);
      EnumInjective(9, SOURCES, a.source, b.source);
      SharedPartsInjective(a.evidence, b.evidence, a.authority, b.authority, 10, 11);
    } else {
      CanonAuthorityFields(a.authority);
      CanonAuthorityFields(b.authority);
    }
  }

  // ---------------------------------------------------------------------------------------
  // Digests
  // ---------------------------------------------------------------------------------------

  /** What is hashed: the domain, the length, the encoding. */
  function DigestMessage(domain: string, bytes: seq<Byte>): seq<Byte>
    requires ByteText(domain)
  {
    PutChars(domain, Put(|bytes|, 4, bytes))
  }

  /** Within a domain the hashed message determines the encoding, whatever its length: the four
      length bytes are at a fixed place. */
  lemma SameDomainMessages(domain: string, a: seq<Byte>, b: seq<Byte>)
    requires ByteText(domain) && DigestMessage(domain, a) == DigestMessage(domain, b)
    ensures a == b
  {
    hide PutChars, GetChars, Put, Get;
    CharsRoundTrip(domain, Put(|a|, 4, a));
    CharsRoundTrip(domain, Put(|b|, 4, b));
    PutThen(|a|, 4, [], a);
    PutThen(|b|, 4, [], b);
    PutSize(|a|, 4, []);
    PutSize(|b|, 4, []);
    assert [] + a == a && [] + b == b;
    assert Put(|a|, 4, a)[4..] == a && Put(|b|, 4, b)[4..] == b;
  }

  const CORE_DOMAIN: string := "rp.node.core.v1"

  lemma CoreDomainIsText()
    ensures ByteText(CORE_DOMAIN)
  {
  }

  /** The message a record's identity is the digest of. */
  function CoreMessage(c: NodeCore): seq<Byte> {
    CoreDomainIsText();
    DigestMessage(CORE_DOMAIN, Encode(CoreFields(c)))
  }

  /** Under a hash that does not collide, record identities are equal exactly for equal content:
      the assumption the store model makes of its identity functions. */
  lemma RecordIdentityAddressesContent(env: Env, hash: seq<Byte> -> nat, a: NodeCore, b: NodeCore)
    requires RepCore(a) && RepCore(b)
    requires forall x, y :: hash(x) == hash(y) ==> x == y
    requires forall c :: RepCore(c) ==> env.NodeId(c) == hash(CoreMessage(c))
    ensures env.NodeId(a) == env.NodeId(b) <==> CanonCore(a) == CanonCore(b)
  {
    hide Encode, CoreFields, RepCore, CanonCore, DigestMessage, ByteText, Env.NodeId;
    CoreDomainIsText();
    CoreEncodingInjective(a, b);
    if env.NodeId(a) == env.NodeId(b) {
      SameDomainMessages(CORE_DOMAIN, Encode(CoreFields(a)), Encode(CoreFields(b)));
    }
  }
}
