// The canonical encoder as an object (CanonicalEncoder, src/core.cpp:499): fields are appended one
// by one, and what is hashed for a record or a derivation is the encoding of its field list.
module CanonicalEncoders {
  import opened Types
  import opened StoreTypes
  import opened Bytes
  import opened Codec
  import opened Canonical

  class CanonicalEncoder {
    var bytes: seq<Byte>
    ghost var fields: seq<Field>

    ghost predicate Valid()
      reads this
    {
      bytes == Encode(fields)
    }

    constructor ()
      ensures Valid() && fields == []
    {
      bytes := [];
      fields := [];
    }

    method AddField(id: nat, payload: seq<Byte>)
      requires Valid()
      modifies this
      ensures Valid() && fields == old(fields) + [Field(id, payload)]
    {
      EncodeAppend(fields, Field(id, payload));
      bytes := bytes + Put(id, 2, Put(|payload|, 4, [])) + payload;
      fields := fields + [Field(id, payload)];
    }

    method AddNumber(id: nat, value: nat, width: nat)
      requires Valid()
      modifies this
      ensures Valid() && fields == old(fields) + [Num(id, value, width)]
    {
      AddField(id, Put(value, width, []));
    }

    method AddEnum<E(==)>(id: nat, table: seq<E>, e: E)
      requires Valid()
      modifies this
      ensures Valid() && fields == old(fields) + [Enum(id, table, e)]
    {
      AddNumber(id, Code(table, e), 2);
    }

    method AddNested(id: nat, nested: CanonicalEncoder)
      requires Valid() && nested.Valid() && nested != this
      modifies this
      ensures Valid() && fields == old(fields) + [Nested(id, nested.fields)]
    {
      AddField(id, nested.bytes);
    }
  }

  lemma Rejoin(a: seq<Byte>, b: seq<Byte>, p: seq<Byte>)
    ensures a + (b + p) == a + b + p
  {
  }

  lemma EncodeOne(f: Field)
    ensures Encode([f]) == Put(f.id, 2, Put(|f.payload|, 4, [])) + f.payload
  {
    hide Put;
    assert [f][1..] == [];
    assert f.payload + Encode([]) == f.payload;
    PutAppends(|f.payload|, 4, f.payload);
    PutAppends(f.id, 2, Put(|f.payload|, 4, f.payload));
    PutAppends(f.id, 2, Put(|f.payload|, 4, []));
    Rejoin(Put(f.id, 2, []), Put(|f.payload|, 4, []), f.payload);
  }

  lemma {:induction false} EncodeConcat(a: seq<Field>, b: seq<Field>)
    ensures Encode(a + b) == Encode(a) + Encode(b)
    decreases |a|
  {
    hide Put;
    if a == [] {
      assert a + b == b;
    } else {
      EncodeConcat(a[1..], b);
      assert (a + b)[0] == a[0] && (a + b)[1..] == a[1..] + b;
      var f := a[0];
      Rejoin(f.payload, Encode(a[1..]), Encode(b));
      PutThen(|f.payload|, 4, f.payload + Encode(a[1..]), Encode(b));
      PutThen(f.id, 2, Put(|f.payload|, 4, f.payload + Encode(a[1..])), Encode(b));
    }
  }

  lemma EncodeAppend(fs: seq<Field>, f: Field)
    ensures Encode(fs + [f]) == Encode(fs) + Put(f.id, 2, Put(|f.payload|, 4, [])) + f.payload
  {
    hide Encode, Put;
    EncodeConcat(fs, [f]);
    EncodeOne(f);
    Rejoin(Encode(fs), Put(f.id, 2, Put(|f.payload|, 4, [])), f.payload);
  }

  // ---------------------------------------------------------------------------------------
  // What the program encodes
  // ---------------------------------------------------------------------------------------

  method EncodeEvidence(e: seq<EvidenceEntry>) returns (nested: CanonicalEncoder)
    ensures fresh(nested) && nested.Valid() && nested.fields == EvidenceFields(e)
  {
    hide Encode, Num;
    nested := new CanonicalEncoder();
    nested.AddNumber(1, |e|, 4);
    var i := 0;
    while i < |e|
      invariant 0 <= i <= |e| && nested.Valid()
      invariant nested.fields == [Num(1, |e|, 4)] + EntryFields(e)[..i]
    {
      nested.AddNumber(e[i].field, e[i].value, 8);
      assert EntryFields(e)[..i + 1] == EntryFields(e)[..i] + [EntryFields(e)[i]];
      i := i + 1;
    }
    assert EntryFields(e)[..i] == EntryFields(e);
  }

  method EncodeAuthority(a: Authority) returns (nested: CanonicalEncoder)
    ensures fresh(nested) && nested.Valid() && nested.fields == AuthorityFields(a)
  {
    hide Encode, Num, Nested;
    var scope := new CanonicalEncoder();
    scope.AddNumber(1, ScopeCode(a.scope), 2);
    scope.AddNumber(2, ScopeSubject(a.scope), 8);
    assert scope.fields == ScopeFields(a.scope);
    nested := new CanonicalEncoder();
    nested.AddNumber(1, a.publisher, 8);
    nested.AddNumber(2, a.boot, 8);
    nested.AddNumber(3, a.epoch, 8);
    nested.AddNumber(4, a.attempt, 8);
    nested.AddNested(5, scope);
    nested.AddNumber(6, OrZero(a.expectedLineage), 8);
    nested.AddNumber(7, OrZero(a.expectedStore), 8);
  }

  method AddPath(encoder: CanonicalEncoder, b: Bindings)
    requires encoder.Valid()
    modifies encoder
    ensures encoder.Valid() && encoder.fields == old(encoder.fields) + PathField(b)
  {
    hide Encode, Num, Nested;
    if b.path.Some? {
      var nested := new CanonicalEncoder();
      nested.AddNumber(1, b.path.value.path, 8);
      nested.AddNumber(2, b.path.value.generation, 8);
      nested.AddNumber(3, b.path.value.decision, 32);
      assert nested.fields == PathFields(b.path.value);
      encoder.AddNested(1, nested);
    }
  }

  method AddPlanner(encoder: CanonicalEncoder, b: Bindings)
    requires encoder.Valid()
    modifies encoder
    ensures encoder.Valid() && encoder.fields == old(encoder.fields) + PlannerField(b)
  {
    hide Encode, Num, Nested;
    if b.planner.Some? {
      var nested := new CanonicalEncoder();
      nested.AddNumber(1, b.planner.value.request, 8);
      nested.AddNumber(2, b.planner.value.generation, 8);
      nested.AddNumber(3, b.planner.value.rank, 4);
      nested.AddNumber(4, b.planner.value.plan, 32);
      nested.AddNumber(5, b.planner.value.selectedPath, 8);
      assert nested.fields == PlannerFields(b.planner.value);
      encoder.AddNested(2, nested);
    }
  }

  method AddEcmp(encoder: CanonicalEncoder, b: Bindings)
    requires encoder.Valid()
    modifies encoder
    ensures encoder.Valid() && encoder.fields == old(encoder.fields) + EcmpField(b)
  {
    hide Encode, Num, Nested;
    if b.ecmp.Some? {
      var nested := new CanonicalEncoder();
      nested.AddNumber(1, b.ecmp.value.group, 8);
      nested.AddNumber(2, b.ecmp.value.membership, 8);
      nested.AddNumber(3, b.ecmp.value.assignment, 8);
      assert nested.fields == EcmpFields(b.ecmp.value);
      encoder.AddNested(3, nested);
    }
  }

  method AddWeighted(encoder: CanonicalEncoder, b: Bindings)
    requires encoder.Valid()
    modifies encoder
    ensures encoder.Valid() && encoder.fields == old(encoder.fields) + WeightedField(b)
  {
    hide Encode, Num, Nested;
    if b.weighted.Some? {
      var nested := new CanonicalEncoder();
      nested.AddNumber(1, b.weighted.value.set_, 8);
      nested.AddNumber(2, b.weighted.value.policy, 8);
      nested.AddNumber(3, b.weighted.value.assignment, 8);
      assert nested.fields == WeightedFields(b.weighted.value);
      encoder.AddNested(4, nested);
    }
  }

  method AddAdaptation(encoder: CanonicalEncoder, b: Bindings)
    requires encoder.Valid()
    modifies encoder
    ensures encoder.Valid() && encoder.fields == old(encoder.fields) + AdaptationField(b)
  {
    hide Encode, Num, Nested;
    if b.adaptation.Some? {
      var nested := new CanonicalEncoder();
      nested.AddNumber(1, b.adaptation.value.decision, 8);
      nested.AddNumber(2, b.adaptation.value.generation, 8);
      nested.AddNumber(3, b.adaptation.value.policy, 8);
      nested.AddNumber(4, b.adaptation.value.evidence, 8);
      nested.AddNumber(5, b.adaptation.value.digest, 32);
      assert nested.fields == AdaptationFields(b.adaptation.value);
      encoder.AddNested(5, nested);
    }
  }

  method AddConvergence(encoder: CanonicalEncoder, b: Bindings)
    requires encoder.Valid()
    modifies encoder
    ensures encoder.Valid() && encoder.fields == old(encoder.fields) + ConvergenceField(b)
  {
    hide Encode, Num, Nested;
    if b.convergence.Some? {
      var nested := new CanonicalEncoder();
      nested.AddNumber(1, b.convergence.value.plan, 8);
      nested.AddNumber(2, b.convergence.value.generation, 8);
      nested.AddNumber(3, b.convergence.value.step, 8);
      nested.AddNumber(4, b.convergence.value.completion, 32);
      assert nested.fields == ConvergenceFields(b.convergence.value);
      encoder.AddNested(6, nested);
    }
  }

  method AddPolicy(encoder: CanonicalEncoder, b: Bindings)
    requires encoder.Valid()
    modifies encoder
    ensures encoder.Valid() && encoder.fields == old(encoder.fields) + PolicyField(b)
  {
    hide Encode, Num, Nested;
    if b.policy.Some? {
      var nested := new CanonicalEncoder();
      nested.AddNumber(1, b.policy.value, 8);
      assert nested.fields == PolicyFields(b.policy.value);
      encoder.AddNested(7, nested);
    }
  }

  method EncodeBindings(b: Bindings) returns (nested: CanonicalEncoder)
    ensures fresh(nested) && nested.Valid() && nested.fields == BindingFields(b)
  {
    hide Encode, PathField, PlannerField, EcmpField, WeightedField, AdaptationField, ConvergenceField, PolicyField;
    nested := new CanonicalEncoder();
    AddPath(nested, b);
    AddPlanner(nested, b);
    AddEcmp(nested, b);
    AddWeighted(nested, b);
    AddAdaptation(nested, b);
    AddConvergence(nested, b);
    AddPolicy(nested, b);
    BindingsInOrder(b);
  }

  lemma BindingsInOrder(b: Bindings)
    ensures BindingFields(b) ==
            [] + PathField(b) + PlannerField(b) + EcmpField(b) + WeightedField(b) + AdaptationField(b) +
            ConvergenceField(b) + PolicyField(b)
  {
    hide PathField, PlannerField, EcmpField, WeightedField, AdaptationField, ConvergenceField, PolicyField;
  }

  method AddCoreScalars(encoder: CanonicalEncoder, c: NodeCore)
    requires encoder.Valid()
    modifies encoder
    ensures encoder.Valid() && encoder.fields == old(encoder.fields) + CoreScalars(c)
  {
    hide Encode, Num, Enum, RootCode;
    encoder.AddNumber(1, GRAPH_VERSION, 4);
    encoder.AddNumber(2, c.lineage, 8);
    encoder.AddEnum(3, NODE_KINDS, c.kind);
    encoder.AddNumber(4, c.route, 8);
    encoder.AddNumber(5, c.generation, 8);
    encoder.AddNumber(6, c.stateDigest, 32);
    encoder.AddEnum(7, REASONS, c.reason);
    encoder.AddEnum(8, SOURCES, c.source);
    encoder.AddNumber(9, RootCode(c.rootReason), 2);
  }

  /** What node_core_digest hashes. */
  method EncodeCore(c: NodeCore) returns (encoder: CanonicalEncoder)
    ensures fresh(encoder) && encoder.bytes == Encode(CoreFields(c))
  {
    hide Encode, Num, Nested, CoreScalars, EvidenceFields, AuthorityFields, BindingFields;
    var evidence := EncodeEvidence(c.evidence);
    var authority := EncodeAuthority(c.authority);
    var bindings := EncodeBindings(c.bindings);
    encoder := new CanonicalEncoder();
    AddCoreScalars(encoder, c);
    encoder.AddNested(10, evidence);
    encoder.AddNested(11, authority);
    encoder.AddNested(12, bindings);
    encoder.AddNumber(13, OrZero(c.corrects), 8);
    encoder.AddNumber(14, OrZero(c.compacted), 32);
    assert encoder.fields == CoreFields(c);
  }

  function DerivationScalars(e: Edge): seq<Field> {
    [Num(1, GRAPH_VERSION, 4), Num(2, e.lineage, 8), Enum(3, EDGE_TYPES, e.etype), Num(4, e.from, 8), Num(5, e.to, 8),
     Num(6, e.predecessor, 8), Num(7, e.successor, 8), Enum(8, REASONS, e.reason), Enum(9, SOURCES, e.source)]
  }

  method AddDerivationScalars(encoder: CanonicalEncoder, e: Edge)
    requires encoder.Valid()
    modifies encoder
    ensures encoder.Valid() && encoder.fields == old(encoder.fields) + DerivationScalars(e)
  {
    hide Encode, Num, Enum;
    encoder.AddNumber(1, GRAPH_VERSION, 4);
    encoder.AddNumber(2, e.lineage, 8);
    encoder.AddEnum(3, EDGE_TYPES, e.etype);
    encoder.AddNumber(4, e.from, 8);
    encoder.AddNumber(5, e.to, 8);
    encoder.AddNumber(6, e.predecessor, 8);
    encoder.AddNumber(7, e.successor, 8);
    encoder.AddEnum(8, REASONS, e.reason);
    encoder.AddEnum(9, SOURCES, e.source);
  }

  /** What compute_derivation_id hashes. */
  method EncodeDerivation(e: Edge) returns (encoder: CanonicalEncoder)
    ensures fresh(encoder) && encoder.bytes == Encode(DerivationFields(e))
  {
    hide Encode, Num, Nested, Enum, EvidenceFields, AuthorityFields;
    var evidence := EncodeEvidence(e.evidence);
    var authority := EncodeAuthority(e.authority);
    encoder := new CanonicalEncoder();
    AddDerivationScalars(encoder, e);
    encoder.AddNested(10, evidence);
    encoder.AddNested(11, authority);
    assert encoder.fields == DerivationFields(e);
  }
}
