// Bindings in a field bag (put_bindings and take_bindings, src/wire.cpp:164): a presence mask, then
// the fields of the present bindings under consecutive numbers. Which number a field gets depends
// on which bindings are present, on both sides in the same way.
module WireBindings {
  import opened Types
  import opened StoreTypes
  import opened Bytes
  import opened Codec
  import opened FieldBags

  type Payloads = seq<seq<Byte>>

  function WireNumber(v: nat, width: nat): seq<Byte> {
    Put(v, width, [])
  }

  /** Consecutive fields from a cursor on. */
  function PutAll(m: Fields, cursor: nat, ps: Payloads): Fields
    decreases |ps|
  {
    if ps == [] then m else PutAll(m[cursor := ps[0]], cursor + 1, ps[1..])
  }

  ghost predicate At(m: Fields, cursor: nat, ps: Payloads) {
    forall k :: cursor <= k < cursor + |ps| ==> k in m && m[k] == ps[k - cursor]
  }

  lemma {:induction false} PutAllAt(m: Fields, cursor: nat, ps: Payloads)
    ensures At(PutAll(m, cursor, ps), cursor, ps)
    ensures forall k :: k < cursor ==> (k in PutAll(m, cursor, ps) <==> k in m)
    ensures forall k :: k < cursor && k in m ==> PutAll(m, cursor, ps)[k] == m[k]
    decreases |ps|
  {
    if ps != [] {
      PutAllAt(m[cursor := ps[0]], cursor + 1, ps[1..]);
    }
  }

  lemma {:induction false} PutAllConcat(m: Fields, cursor: nat, a: Payloads, b: Payloads)
    ensures PutAll(PutAll(m, cursor, a), cursor + |a|, b) == PutAll(m, cursor, a + b)
    decreases |a|
  {
    if a == [] {
      assert a + b == b;
    } else {
      PutAllConcat(m[cursor := a[0]], cursor + 1, a[1..], b);
      assert (a + b)[1..] == a[1..] + b && (a + b)[0] == a[0];
    }
  }

  lemma AtSplit(m: Fields, cursor: nat, a: Payloads, b: Payloads)
    requires At(m, cursor, a + b)
    ensures At(m, cursor, a) && At(m, cursor + |a|, b)
  {
    forall k | cursor + |a| <= k < cursor + |a| + |b| ensures k in m && m[k] == b[k - (cursor + |a|)] {
      assert (a + b)[k - cursor] == b[k - cursor - |a|];
    }
  }

  /** A field that is missing or has the wrong width reads as zero. */
  function Take(m: Fields, field: nat, width: nat): nat {
    OrZero(NumberIn(m, field, width))
  }

  lemma TakeAt(m: Fields, cursor: nat, ps: Payloads, i: nat, v: nat, width: nat)
    requires At(m, cursor, ps) && i < |ps| && ps[i] == WireNumber(v, width) && Fits(v, width)
    ensures Take(m, cursor + i, width) == v
  {
    PutGet(v, width, []);
    PutSize(v, width, []);
  }

  function PathPayloads(b: PathBinding): (ps: Payloads)
    ensures |ps| == 3
  {
    [WireNumber(b.path, 8), WireNumber(b.generation, 8), WireNumber(b.decision, 32)]
  }

  function TakePath(m: Fields, c: nat): PathBinding {
    PathBinding(Take(m, c, 8), Take(m, c + 1, 8), Take(m, c + 2, 32))
  }

  lemma PathTaken(m: Fields, c: nat, b: PathBinding)
    requires RepPath(b) && At(m, c, PathPayloads(b))
    ensures TakePath(m, c) == b
  {
    hide Put, Fits, At, Take;
    TakeAt(m, c, PathPayloads(b), 0, b.path, 8);
    TakeAt(m, c, PathPayloads(b), 1, b.generation, 8);
    TakeAt(m, c, PathPayloads(b), 2, b.decision, 32);
  }

  function PlannerPayloads(b: PlannerBinding): (ps: Payloads)
    ensures |ps| == 5
  {
    [WireNumber(b.request, 8), WireNumber(b.generation, 8), WireNumber(b.rank, 4), WireNumber(b.plan, 32),
      WireNumber(b.selectedPath, 8)]
  }

  function TakePlanner(m: Fields, c: nat): PlannerBinding {
    PlannerBinding(Take(m, c, 8), Take(m, c + 1, 8), Take(m, c + 2, 4), Take(m, c + 3, 32), Take(m, c + 4, 8))
  }

  lemma PlannerTaken(m: Fields, c: nat, b: PlannerBinding)
    requires RepPlanner(b) && At(m, c, PlannerPayloads(b))
    ensures TakePlanner(m, c) == b
  {
    hide Put, Fits, At, Take;
    TakeAt(m, c, PlannerPayloads(b), 0, b.request, 8);
    TakeAt(m, c, PlannerPayloads(b), 1, b.generation, 8);
    TakeAt(m, c, PlannerPayloads(b), 2, b.rank, 4);
    TakeAt(m, c, PlannerPayloads(b), 3, b.plan, 32);
    TakeAt(m, c, PlannerPayloads(b), 4, b.selectedPath, 8);
  }

  function EcmpPayloads(b: EcmpBinding): (ps: Payloads)
    ensures |ps| == 3
  {
    [WireNumber(b.group, 8), WireNumber(b.membership, 8), WireNumber(b.assignment, 8)]
  }

  function TakeEcmp(m: Fields, c: nat): EcmpBinding {
    EcmpBinding(Take(m, c, 8), Take(m, c + 1, 8), Take(m, c + 2, 8))
  }

  lemma EcmpTaken(m: Fields, c: nat, b: EcmpBinding)
    requires RepEcmp(b) && At(m, c, EcmpPayloads(b))
    ensures TakeEcmp(m, c) == b
  {
    hide Put, Fits, At, Take;
    TakeAt(m, c, EcmpPayloads(b), 0, b.group, 8);
    TakeAt(m, c, EcmpPayloads(b), 1, b.membership, 8);
    TakeAt(m, c, EcmpPayloads(b), 2, b.assignment, 8);
  }

  function WeightedPayloads(b: WeightedBinding): (ps: Payloads)
    ensures |ps| == 3
  {
    [WireNumber(b.set_, 8), WireNumber(b.policy, 8), WireNumber(b.assignment, 8)]
  }

  function TakeWeighted(m: Fields, c: nat): WeightedBinding {
    WeightedBinding(Take(m, c, 8), Take(m, c + 1, 8), Take(m, c + 2, 8))
  }

  lemma WeightedTaken(m: Fields, c: nat, b: WeightedBinding)
    requires RepWeighted(b) && At(m, c, WeightedPayloads(b))
    ensures TakeWeighted(m, c) == b
  {
    hide Put, Fits, At, Take;
    TakeAt(m, c, WeightedPayloads(b), 0, b.set_, 8);
    TakeAt(m, c, WeightedPayloads(b), 1, b.policy, 8);
    TakeAt(m, c, WeightedPayloads(b), 2, b.assignment, 8);
  }

  function AdaptationPayloads(b: AdaptationBinding): (ps: Payloads)
    ensures |ps| == 5
  {
    [WireNumber(b.decision, 8), WireNumber(b.generation, 8), WireNumber(b.policy, 8), WireNumber(b.evidence, 8),
      WireNumber(b.digest, 32)]
  }

  function TakeAdaptation(m: Fields, c: nat): AdaptationBinding {
    AdaptationBinding(Take(m, c, 8), Take(m, c + 1, 8), Take(m, c + 2, 8), Take(m, c + 3, 8), Take(m, c + 4, 32))
  }

  lemma AdaptationTaken(m: Fields, c: nat, b: AdaptationBinding)
    requires RepAdaptation(b) && At(m, c, AdaptationPayloads(b))
    ensures TakeAdaptation(m, c) == b
  {
    hide Put, Fits, At, Take;
    TakeAt(m, c, AdaptationPayloads(b), 0, b.decision, 8);
    TakeAt(m, c, AdaptationPayloads(b), 1, b.generation, 8);
    TakeAt(m, c, AdaptationPayloads(b), 2, b.policy, 8);
    TakeAt(m, c, AdaptationPayloads(b), 3, b.evidence, 8);
    TakeAt(m, c, AdaptationPayloads(b), 4, b.digest, 32);
  }

  function ConvergencePayloads(b: ConvergenceBinding): (ps: Payloads)
    ensures |ps| == 4
  {
    [WireNumber(b.plan, 8), WireNumber(b.generation, 8), WireNumber(b.step, 8), WireNumber(b.completion, 32)]
  }

  function TakeConvergence(m: Fields, c: nat): ConvergenceBinding {
    ConvergenceBinding(Take(m, c, 8), Take(m, c + 1, 8), Take(m, c + 2, 8), Take(m, c + 3, 32))
  }

  lemma ConvergenceTaken(m: Fields, c: nat, b: ConvergenceBinding)
    requires RepConvergence(b) && At(m, c, ConvergencePayloads(b))
    ensures TakeConvergence(m, c) == b
  {
    hide Put, Fits, At, Take;
    TakeAt(m, c, ConvergencePayloads(b), 0, b.plan, 8);
    TakeAt(m, c, ConvergencePayloads(b), 1, b.generation, 8);
    TakeAt(m, c, ConvergencePayloads(b), 2, b.step, 8);
    TakeAt(m, c, ConvergencePayloads(b), 3, b.completion, 32);
  }

  function PolicyPayloads(policy: nat): (ps: Payloads)
    ensures |ps| == 1
  {
    [WireNumber(policy, 8)]
  }

  function PathPart(b: Bindings): Payloads {
    if b.path.Some? then PathPayloads(b.path.value) else []
  }

  function PlannerPart(b: Bindings): Payloads {
    if b.planner.Some? then PlannerPayloads(b.planner.value) else []
  }

  function EcmpPart(b: Bindings): Payloads {
    if b.ecmp.Some? then EcmpPayloads(b.ecmp.value) else []
  }

  function WeightedPart(b: Bindings): Payloads {
    if b.weighted.Some? then WeightedPayloads(b.weighted.value) else []
  }

  function AdaptationPart(b: Bindings): Payloads {
    if b.adaptation.Some? then AdaptationPayloads(b.adaptation.value) else []
  }

  function ConvergencePart(b: Bindings): Payloads {
    if b.convergence.Some? then ConvergencePayloads(b.convergence.value) else []
  }

  function PolicyPart(b: Bindings): Payloads {
    if b.policy.Some? then PolicyPayloads(b.policy.value) else []
  }

  /** The fields of the present bindings, in the fixed order. */
  function BindingPayloads(b: Bindings): Payloads {
    PathPart(b) + (PlannerPart(b) + (EcmpPart(b) +
      (WeightedPart(b) + (AdaptationPart(b) + (ConvergencePart(b) + PolicyPart(b))))))
  }

  function BagBindings(m: Fields, b: Bindings, base: nat): Fields {
    PutAll(m[base := WireNumber(Mask(Presence(b)), 4)], base + 1, BindingPayloads(b))
  }

  /** The field numbers are counted along the presence mask. */
  function TakeBindings(m: Fields, base: nat): Result<Bindings> {
    var presence := NumberIn(m, base, 4);
    if presence.None? then Failure(MalformedRequest)
    else if presence.value >= 128 then Failure(ProtocolFailure)
    else
      var mask := presence.value;
      var c1 := base + 1;
      var path := if Bit(mask, 0) then Some(TakePath(m, c1)) else None;
      var c2 := c1 + if Bit(mask, 0) then 3 else 0;
      var planner := if Bit(mask, 1) then Some(TakePlanner(m, c2)) else None;
      var c3 := c2 + if Bit(mask, 1) then 5 else 0;
      var ecmp := if Bit(mask, 2) then Some(TakeEcmp(m, c3)) else None;
      var c4 := c3 + if Bit(mask, 2) then 3 else 0;
      var weighted := if Bit(mask, 3) then Some(TakeWeighted(m, c4)) else None;
      var c5 := c4 + if Bit(mask, 3) then 3 else 0;
      var adaptation := if Bit(mask, 4) then Some(TakeAdaptation(m, c5)) else None;
      var c6 := c5 + if Bit(mask, 4) then 5 else 0;
      var convergence := if Bit(mask, 5) then Some(TakeConvergence(m, c6)) else None;
      var c7 := c6 + if Bit(mask, 5) then 4 else 0;
      var policy := if Bit(mask, 6) then Some(Take(m, c7, 8)) else None;
      Success(Bindings(path, planner, ecmp, weighted, adaptation, convergence, policy))
  }

  /** Where each binding's fields start, given what is present. */
  ghost predicate LaidOut(m: Fields, b: Bindings, c1: nat) {
    var c2 := c1 + |PathPart(b)|;
    var c3 := c2 + |PlannerPart(b)|;
    var c4 := c3 + |EcmpPart(b)|;
    var c5 := c4 + |WeightedPart(b)|;
    var c6 := c5 + |AdaptationPart(b)|;
    var c7 := c6 + |ConvergencePart(b)|;
    && At(m, c1, PathPart(b)) && At(m, c2, PlannerPart(b)) && At(m, c3, EcmpPart(b)) && At(m, c4, WeightedPart(b))
    && At(m, c5, AdaptationPart(b)) && At(m, c6, ConvergencePart(b)) && At(m, c7, PolicyPart(b))
  }

  lemma PayloadsPlaced(m: Fields, b: Bindings, c: nat)
    requires At(m, c, BindingPayloads(b))
    ensures LaidOut(m, b, c)
  {
    hide At, PathPart, PlannerPart, EcmpPart, WeightedPart, AdaptationPart, ConvergencePart, PolicyPart;
    var t6 := ConvergencePart(b) + PolicyPart(b);
    var t5 := AdaptationPart(b) + t6;
    var t4 := WeightedPart(b) + t5;
    var t3 := EcmpPart(b) + t4;
    var t2 := PlannerPart(b) + t3;
    var c2 := c + |PathPart(b)|;
    var c3 := c2 + |PlannerPart(b)|;
    var c4 := c3 + |EcmpPart(b)|;
    var c5 := c4 + |WeightedPart(b)|;
    var c6 := c5 + |AdaptationPart(b)|;
    AtSplit(m, c, PathPart(b), t2);
    AtSplit(m, c2, PlannerPart(b), t3);
    AtSplit(m, c3, EcmpPart(b), t4);
    AtSplit(m, c4, WeightedPart(b), t5);
    AtSplit(m, c5, AdaptationPart(b), t6);
    AtSplit(m, c6, ConvergencePart(b), PolicyPart(b));
  }

  /** For every combination of present bindings, what was put into the bag is taken out of it. */
  lemma BindingsSurviveTheWire(m: Fields, b: Bindings, base: nat)
    requires RepBindings(b)
    ensures TakeBindings(BagBindings(m, b, base), base) == Success(b)
  {
    hide Put, Fits, At, Take, TakePath, TakePlanner, TakeEcmp, TakeWeighted, TakeAdaptation, TakeConvergence, Mask, Bit,
      RepPath, RepPlanner, RepEcmp, RepWeighted, RepAdaptation, RepConvergence, Presence, PutAll, PathPayloads,
      PlannerPayloads, EcmpPayloads, WeightedPayloads, AdaptationPayloads, ConvergencePayloads, PolicyPayloads,
      BindingPayloads, NumberIn;
    var m1 := m[base := WireNumber(Mask(Presence(b)), 4)];
    var bag := BagBindings(m, b, base);
    PutAllAt(m1, base + 1, BindingPayloads(b));
    PresenceReadBack(b);
    MaskReadBack(bag, base, Mask(Presence(b)));
    PayloadsPlaced(bag, b, base + 1);
    var c2 := base + 1 + |PathPart(b)|;
    var c3 := c2 + |PlannerPart(b)|;
    var c4 := c3 + |EcmpPart(b)|;
    var c5 := c4 + |WeightedPart(b)|;
    var c6 := c5 + |AdaptationPart(b)|;
    var c7 := c6 + |ConvergencePart(b)|;
    if b.path.Some? { PathTaken(bag, base + 1, b.path.value); }
    if b.planner.Some? { PlannerTaken(bag, c2, b.planner.value); }
    if b.ecmp.Some? { EcmpTaken(bag, c3, b.ecmp.value); }
    if b.weighted.Some? { WeightedTaken(bag, c4, b.weighted.value); }
    if b.adaptation.Some? { AdaptationTaken(bag, c5, b.adaptation.value); }
    if b.convergence.Some? { ConvergenceTaken(bag, c6, b.convergence.value); }
    if b.policy.Some? { PolicyTaken(bag, c7, b.policy.value); }
  }

  lemma PolicyTaken(m: Fields, c: nat, policy: nat)
    requires Fits(policy, 8) && At(m, c, PolicyPayloads(policy))
    ensures Take(m, c, 8) == policy
  {
    hide Put, Fits, At, Take;
    TakeAt(m, c, PolicyPayloads(policy), 0, policy, 8);
  }

  lemma MaskReadBack(m: Fields, base: nat, mask: nat)
    requires base in m && m[base] == WireNumber(mask, 4) && Fits(mask, 4)
    ensures NumberIn(m, base, 4) == Some(mask)
  {
    PutGet(mask, 4, []);
    PutSize(mask, 4, []);
  }

  // ---------------------------------------------------------------------------------------
  // The writer, as the program runs it: one field after the other, counting
  // ---------------------------------------------------------------------------------------

  method PutPart(bag: FieldBag, cursor: nat, ps: Payloads) returns (next: nat)
    requires bag.Valid()
    modifies bag
    ensures bag.Valid() && bag.fields == PutAll(old(bag.fields), cursor, ps) && next == cursor + |ps|
  {
    hide Print;
    next := cursor;
    var i := 0;
    assert ps[0..] == ps;
    while i < |ps|
      invariant 0 <= i <= |ps| && next == cursor + i && bag.Valid()
      invariant PutAll(bag.fields, next, ps[i..]) == PutAll(old(bag.fields), cursor, ps)
    {
      PutAllStep(bag.fields, next, ps[i..]);
      assert ps[i..][1..] == ps[i + 1..];
      bag.SetBytes(next, ps[i]);
      next := next + 1;
      i := i + 1;
    }
    PutAllNothing(bag.fields, next);
    assert ps[i..] == [];
  }

  lemma PutAllStep(m: Fields, cursor: nat, ps: Payloads)
    requires ps != []
    ensures PutAll(m, cursor, ps) == PutAll(m[cursor := ps[0]], cursor + 1, ps[1..])
  {
  }

  /** The cursor only moves over the bindings that are present. */
  method FillBindings(bag: FieldBag, b: Bindings, base: nat)
    requires bag.Valid()
    modifies bag
    ensures bag.Valid() && bag.fields == BagBindings(old(bag.fields), b, base)
  {
    hide Put, Mask, PutAll, Print, Presence, BindingPayloads, PathPayloads, PlannerPayloads, EcmpPayloads,
      WeightedPayloads, AdaptationPayloads, ConvergencePayloads, PolicyPayloads, PathPart, PlannerPart, EcmpPart,
      WeightedPart, AdaptationPart, ConvergencePart, PolicyPart;
    ghost var m := old(bag.fields)[base := WireNumber(Mask(Presence(b)), 4)];
    bag.SetNumber(base, Mask(Presence(b)), 4);
    var cursor := base + 1;
    ghost var done: Payloads := [];
    PutAllNothing(m, base + 1);
    cursor := PutPart(bag, cursor, PathPart(b));
    PutAllConcat(m, base + 1, done, PathPart(b));
    done := done + PathPart(b);
    cursor := PutPart(bag, cursor, PlannerPart(b));
    PutAllConcat(m, base + 1, done, PlannerPart(b));
    done := done + PlannerPart(b);
    cursor := PutPart(bag, cursor, EcmpPart(b));
    PutAllConcat(m, base + 1, done, EcmpPart(b));
    done := done + EcmpPart(b);
    cursor := PutPart(bag, cursor, WeightedPart(b));
    PutAllConcat(m, base + 1, done, WeightedPart(b));
    done := done + WeightedPart(b);
    cursor := PutPart(bag, cursor, AdaptationPart(b));
    PutAllConcat(m, base + 1, done, AdaptationPart(b));
    done := done + AdaptationPart(b);
    cursor := PutPart(bag, cursor, ConvergencePart(b));
    PutAllConcat(m, base + 1, done, ConvergencePart(b));
    done := done + ConvergencePart(b);
    cursor := PutPart(bag, cursor, PolicyPart(b));
    PutAllConcat(m, base + 1, done, PolicyPart(b));
    done := done + PolicyPart(b);
    PayloadsInOrder(b);
  }

  lemma PutAllNothing(m: Fields, cursor: nat)
    ensures PutAll(m, cursor, []) == m
  {
  }

  lemma PayloadsInOrder(b: Bindings)
    ensures BindingPayloads(b) ==
            [] + PathPart(b) + PlannerPart(b) + EcmpPart(b) + WeightedPart(b) + AdaptationPart(b) + ConvergencePart(b) +
            PolicyPart(b)
  {
    hide PathPart, PlannerPart, EcmpPart, WeightedPart, AdaptationPart, ConvergencePart, PolicyPart;
  }
}
