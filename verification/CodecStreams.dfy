// The codec as the program runs it: straight-line writes onto a writer, cursor-driven reads off a
// reader. Each method is proved against the function of the same name.
module CodecStreams {
  import opened Types
  import opened StoreTypes
  import opened Bytes
  import opened EvidenceVectors
  import opened Images
  import opened Codec
  import opened Streams

  // ---------------------------------------------------------------------------------------
  // Enumerations, flags, root reasons
  // ---------------------------------------------------------------------------------------

  method WriteEnum<E(==)>(w: Writer, table: seq<E>, e: E)
    modifies w
    ensures forall rest :: w.bytes + rest == old(w.bytes) + PutEnum(table, e, rest)
  {
    w.Number(Code(table, e), 2);
  }

  /** Nothing when the value is unknown or the bytes are missing. */
  method ReadEnum<E>(r: Reader, table: seq<E>) returns (e: Option<E>)
    requires r.Valid()
    modifies r
    ensures r.Valid()
    ensures e.Some? <==> old(r.Rest()).Some? && GetEnum(table, old(r.Rest()).value).Good?
    ensures e.Some? ==> e.value == GetEnum(table, old(r.Rest()).value).value &&
                        r.Rest() == Some(GetEnum(table, old(r.Rest()).value).rest)
  {
    var code := r.Number(2);
    if r.failed || !(1 <= code <= |table|) {
      return None;
    }
    return Some(table[code - 1]);
  }

  method ReadFlag(r: Reader) returns (b: Option<bool>)
    requires r.Valid()
    modifies r
    ensures r.Valid()
    ensures b.Some? <==> old(r.Rest()).Some? && GetFlag(old(r.Rest()).value).Good?
    ensures b.Some? ==> b.value == GetFlag(old(r.Rest()).value).value &&
                        r.Rest() == Some(GetFlag(old(r.Rest()).value).rest)
  {
    var v := r.Number(1);
    if r.failed || v > 1 {
      return None;
    }
    return Some(v == 1);
  }

  method ReadRoot(r: Reader) returns (root: Option<Option<RootReason>>)
    requires r.Valid()
    modifies r
    ensures r.Valid()
    ensures root.Some? <==> old(r.Rest()).Some? && GetRoot(old(r.Rest()).value).Good?
    ensures root.Some? ==> root.value == GetRoot(old(r.Rest()).value).value &&
                           r.Rest() == Some(GetRoot(old(r.Rest()).value).rest)
  {
    var code := r.Number(2);
    if r.failed || code > |ROOTS| {
      return None;
    }
    return Some(if code == 0 then None else Some(ROOTS[code - 1]));
  }

  // ---------------------------------------------------------------------------------------
  // Evidence
  // ---------------------------------------------------------------------------------------

  method WriteEvidence(w: Writer, e: seq<EvidenceEntry>)
    modifies w
    ensures forall rest :: w.bytes + rest == old(w.bytes) + PutEvidence(e, rest)
  {
    hide Put;
    w.Number(|e|, 2);
    ghost var start := w.bytes;
    var i := 0;
    assert e[0..] == e;
    while i < |e|
      invariant 0 <= i <= |e|
      invariant forall rest :: w.bytes + PutEntries(e[i..], rest) == start + PutEntries(e, rest)
    {
      ghost var before := w.bytes;
      w.Number(e[i].field, 2);
      ghost var middle := w.bytes;
      w.Number(e[i].value, 8);
      forall rest ensures w.bytes + PutEntries(e[i + 1..], rest) == start + PutEntries(e, rest) {
        assert e[i..][1..] == e[i + 1..];
        var tail := PutEntries(e[i + 1..], rest);
        assert w.bytes + tail == middle + Put(e[i].value, 8, tail);
        assert middle + Put(e[i].value, 8, tail) == before + PutEntries(e[i..], rest);
      }
      i := i + 1;
    }
    assert e[i..] == [];
    forall rest ensures w.bytes + rest == old(w.bytes) + PutEvidence(e, rest) {
      assert w.bytes + PutEntries(e[i..], rest) == start + PutEntries(e, rest);
    }
  }

  /** What reading the remaining entries would give, after those already read. */
  ghost function Then<T>(done: seq<T>, p: Parsed<seq<T>>): Parsed<seq<T>> {
    if p.Bad? then Bad else Good(done + p.value, p.rest)
  }

  lemma ThenStep<T>(done: seq<T>, x: T, p: Parsed<seq<T>>)
    ensures Then(done, if p.Bad? then Bad else Good([x] + p.value, p.rest)) == Then(done + [x], p)
  {
    if p.Good? {
      assert done + ([x] + p.value) == done + [x] + p.value;
    }
  }

  lemma ThenNothing<T>(done: seq<T>, s: seq<Byte>)
    ensures Then(done, Good([], s)) == Good(done, s)
  {
    assert done + [] == done;
  }

  lemma NothingThen<T>(p: Parsed<seq<T>>)
    ensures Then([], p) == p
  {
    if p.Good? {
      assert [] + p.value == p.value;
    }
  }

  lemma EntriesStep(s: seq<Byte>, n: nat)
    requires n > 0
    ensures
      var a := Get(s, 2);
      if a.Bad? || Get(a.rest, 8).Bad? then GetEntries(s, n).Bad?
      else
        var b, more := Get(a.rest, 8), GetEntries(Get(a.rest, 8).rest, n - 1);
        GetEntries(s, n) == if more.Bad? then Bad else Good([EvidenceEntry(a.value, b.value)] + more.value, more.rest)
  {
    hide Get;
  }

  method ReadEvidence(r: Reader, limits: Limits) returns (e: Option<seq<EvidenceEntry>>)
    requires r.Valid()
    modifies r
    ensures r.Valid()
    ensures e.Some? <==> old(r.Rest()).Some? && GetEvidence(old(r.Rest()).value, limits).Good?
    ensures e.Some? ==> e.value == GetEvidence(old(r.Rest()).value, limits).value &&
                        r.Rest() == Some(GetEvidence(old(r.Rest()).value, limits).rest)
  {
    hide Get, GetEntries, Create;
    var n := r.Number(2);
    if r.failed || n > limits.maxEvidence {
      return None;
    }
    ghost var s := r.Rest().value;
    var entries: seq<EvidenceEntry> := [];
    var i := 0;
    NothingThen(GetEntries(s, n));
    while i < n
      invariant 0 <= i <= n && r.Valid() && !r.failed
      invariant GetEntries(s, n) == Then(entries, GetEntries(r.Rest().value, n - i))
    {
      EntriesStep(r.Rest().value, n - i);
      ghost var more := r.Rest().value;
      var field := r.Number(2);
      var value := r.Number(8);
      if r.failed {
        return None;
      }
      ThenStep(entries, EvidenceEntry(field, value), GetEntries(r.Rest().value, n - i - 1));
      entries := entries + [EvidenceEntry(field, value)];
      i := i + 1;
    }
    NoEntries(r.Rest().value);
    ThenNothing(entries, r.Rest().value);
    var vector := CreateVector(entries, limits);
    if vector.Failure? {
      return None;
    }
    return Some(vector.value);
  }

  lemma NoEntries(s: seq<Byte>)
    ensures GetEntries(s, 0) == Good([], s)
  {
  }

  // ---------------------------------------------------------------------------------------
  // Authority
  // ---------------------------------------------------------------------------------------

  method WriteAuthority(w: Writer, a: Authority)
    modifies w
    ensures forall rest :: w.bytes + rest == old(w.bytes) + PutAuthority(a, rest)
  {
    hide Put;
    ghost var w0 := w.bytes;
    w.Number(a.publisher, 8);
    ghost var w1 := w.bytes;
    w.Number(a.boot, 8);
    ghost var w2 := w.bytes;
    w.Number(a.epoch, 8);
    ghost var w3 := w.bytes;
    w.Number(a.attempt, 8);
    ghost var w4 := w.bytes;
    w.Number(ScopeCode(a.scope), 2);
    ghost var w5 := w.bytes;
    w.Number(ScopeSubject(a.scope), 8);
    ghost var w6 := w.bytes;
    w.Number(OrZero(a.expectedLineage), 8);
    ghost var w7 := w.bytes;
    w.Number(OrZero(a.expectedStore), 8);
    forall rest ensures w.bytes + rest == w0 + PutAuthority(a, rest) {
      var t7 := Put(OrZero(a.expectedStore), 8, rest);
      var t6 := Put(OrZero(a.expectedLineage), 8, t7);
      var t5 := Put(ScopeSubject(a.scope), 8, t6);
      var t4 := Put(ScopeCode(a.scope), 2, t5);
      var t3 := Put(a.attempt, 8, t4);
      var t2 := Put(a.epoch, 8, t3);
      var t1 := Put(a.boot, 8, t2);
      assert w.bytes + rest == w7 + t7;
      assert w7 + t7 == w6 + t6;
      assert w6 + t6 == w5 + t5;
      assert w5 + t5 == w4 + t4;
      assert w4 + t4 == w3 + t3;
      assert w3 + t3 == w2 + t2;
      assert w2 + t2 == w1 + t1;
      assert w1 + t1 == w0 + Put(a.publisher, 8, t1);
    }
  }

  method ReadAuthority(r: Reader) returns (x: Option<Authority>)
    requires r.Valid()
    modifies r
    ensures r.Valid()
    ensures x.Some? <==> old(r.Rest()).Some? && GetAuthority(old(r.Rest()).value).Good?
    ensures x.Some? ==> x.value == GetAuthority(old(r.Rest()).value).value &&
                        r.Rest() == Some(GetAuthority(old(r.Rest()).value).rest)
  {
    hide Get;
    var publisher := r.Number(8);
    var boot := r.Number(8);
    var epoch := r.Number(8);
    var attempt := r.Number(8);
    var code := r.Number(2);
    var subject := r.Number(8);
    var lineage := r.Number(8);
    var store := r.Number(8);
    if r.failed {
      return None;
    }
    var scope := ScopeOf(code, subject);
    if scope.None? {
      return None;
    }
    return Some(Authority(publisher, boot, epoch, attempt, scope.value, UnlessZero(lineage), UnlessZero(store)));
  }

  // ---------------------------------------------------------------------------------------
  // Bindings
  // ---------------------------------------------------------------------------------------

  method WritePath(w: Writer, b: PathBinding)
    modifies w
    ensures forall rest :: w.bytes + rest == old(w.bytes) + PutPath(b, rest)
  {
    hide Put;
    ghost var w0 := w.bytes;
    w.Number(b.path, 8);
    ghost var w1 := w.bytes;
    w.Number(b.generation, 8);
    ghost var w2 := w.bytes;
    w.Number(b.decision, 32);
    forall rest ensures w.bytes + rest == w0 + PutPath(b, rest) {
      var t2 := Put(b.decision, 32, rest);
      var t1 := Put(b.generation, 8, t2);
      assert w.bytes + rest == w2 + t2;
      assert w2 + t2 == w1 + t1;
      assert w1 + t1 == w0 + Put(b.path, 8, t1);
    }
  }

  method ReadPath(r: Reader) returns (x: Option<PathBinding>)
    requires r.Valid()
    modifies r
    ensures r.Valid()
    ensures x.Some? <==> old(r.Rest()).Some? && GetPath(old(r.Rest()).value).Good?
    ensures x.Some? ==> x.value == GetPath(old(r.Rest()).value).value &&
                        r.Rest() == Some(GetPath(old(r.Rest()).value).rest)
  {
    hide Get;
    var path := r.Number(8);
    var generation := r.Number(8);
    var decision := r.Number(32);
    if r.failed {
      return None;
    }
    return Some(PathBinding(path, generation, decision));
  }

  method WritePlanner(w: Writer, b: PlannerBinding)
    modifies w
    ensures forall rest :: w.bytes + rest == old(w.bytes) + PutPlanner(b, rest)
  {
    hide Put;
    ghost var w0 := w.bytes;
    w.Number(b.request, 8);
    ghost var w1 := w.bytes;
    w.Number(b.generation, 8);
    ghost var w2 := w.bytes;
    w.Number(b.rank, 4);
    ghost var w3 := w.bytes;
    w.Number(b.plan, 32);
    ghost var w4 := w.bytes;
    w.Number(b.selectedPath, 8);
    forall rest ensures w.bytes + rest == w0 + PutPlanner(b, rest) {
      var t4 := Put(b.selectedPath, 8, rest);
      var t3 := Put(b.plan, 32, t4);
      var t2 := Put(b.rank, 4, t3);
      var t1 := Put(b.generation, 8, t2);
      assert w.bytes + rest == w4 + t4;
      assert w4 + t4 == w3 + t3;
      assert w3 + t3 == w2 + t2;
      assert w2 + t2 == w1 + t1;
      assert w1 + t1 == w0 + Put(b.request, 8, t1);
    }
  }

  method ReadPlanner(r: Reader) returns (x: Option<PlannerBinding>)
    requires r.Valid()
    modifies r
    ensures r.Valid()
    ensures x.Some? <==> old(r.Rest()).Some? && GetPlanner(old(r.Rest()).value).Good?
    ensures x.Some? ==> x.value == GetPlanner(old(r.Rest()).value).value &&
                        r.Rest() == Some(GetPlanner(old(r.Rest()).value).rest)
  {
    hide Get;
    var request := r.Number(8);
    var generation := r.Number(8);
    var rank := r.Number(4);
    var plan := r.Number(32);
    var selectedPath := r.Number(8);
    if r.failed {
      return None;
    }
    return Some(PlannerBinding(request, generation, rank, plan, selectedPath));
  }

  method WriteEcmp(w: Writer, b: EcmpBinding)
    modifies w
    ensures forall rest :: w.bytes + rest == old(w.bytes) + PutEcmp(b, rest)
  {
    hide Put;
    ghost var w0 := w.bytes;
    w.Number(b.group, 8);
    ghost var w1 := w.bytes;
    w.Number(b.membership, 8);
    ghost var w2 := w.bytes;
    w.Number(b.assignment, 8);
    forall rest ensures w.bytes + rest == w0 + PutEcmp(b, rest) {
      var t2 := Put(b.assignment, 8, rest);
      var t1 := Put(b.membership, 8, t2);
      assert w.bytes + rest == w2 + t2;
      assert w2 + t2 == w1 + t1;
      assert w1 + t1 == w0 + Put(b.group, 8, t1);
    }
  }

  method ReadEcmp(r: Reader) returns (x: Option<EcmpBinding>)
    requires r.Valid()
    modifies r
    ensures r.Valid()
    ensures x.Some? <==> old(r.Rest()).Some? && GetEcmp(old(r.Rest()).value).Good?
    ensures x.Some? ==> x.value == GetEcmp(old(r.Rest()).value).value &&
                        r.Rest() == Some(GetEcmp(old(r.Rest()).value).rest)
  {
    hide Get;
    var group := r.Number(8);
    var membership := r.Number(8);
    var assignment := r.Number(8);
    if r.failed {
      return None;
    }
    return Some(EcmpBinding(group, membership, assignment));
  }

  method WriteWeighted(w: Writer, b: WeightedBinding)
    modifies w
    ensures forall rest :: w.bytes + rest == old(w.bytes) + PutWeighted(b, rest)
  {
    hide Put;
    ghost var w0 := w.bytes;
    w.Number(b.set_, 8);
    ghost var w1 := w.bytes;
    w.Number(b.policy, 8);
    ghost var w2 := w.bytes;
    w.Number(b.assignment, 8);
    forall rest ensures w.bytes + rest == w0 + PutWeighted(b, rest) {
      var t2 := Put(b.assignment, 8, rest);
      var t1 := Put(b.policy, 8, t2);
      assert w.bytes + rest == w2 + t2;
      assert w2 + t2 == w1 + t1;
      assert w1 + t1 == w0 + Put(b.set_, 8, t1);
    }
  }

  method ReadWeighted(r: Reader) returns (x: Option<WeightedBinding>)
    requires r.Valid()
    modifies r
    ensures r.Valid()
    ensures x.Some? <==> old(r.Rest()).Some? && GetWeighted(old(r.Rest()).value).Good?
    ensures x.Some? ==> x.value == GetWeighted(old(r.Rest()).value).value &&
                        r.Rest() == Some(GetWeighted(old(r.Rest()).value).rest)
  {
    hide Get;
    var set_ := r.Number(8);
    var policy := r.Number(8);
    var assignment := r.Number(8);
    if r.failed {
      return None;
    }
    return Some(WeightedBinding(set_, policy, assignment));
  }

  method WriteAdaptation(w: Writer, b: AdaptationBinding)
    modifies w
    ensures forall rest :: w.bytes + rest == old(w.bytes) + PutAdaptation(b, rest)
  {
    hide Put;
    ghost var w0 := w.bytes;
    w.Number(b.decision, 8);
    ghost var w1 := w.bytes;
    w.Number(b.generation, 8);
    ghost var w2 := w.bytes;
    w.Number(b.policy, 8);
    ghost var w3 := w.bytes;
    w.Number(b.evidence, 8);
    ghost var w4 := w.bytes;
    w.Number(b.digest, 32);
    forall rest ensures w.bytes + rest == w0 + PutAdaptation(b, rest) {
      var t4 := Put(b.digest, 32, rest);
      var t3 := Put(b.evidence, 8, t4);
      var t2 := Put(b.policy, 8, t3);
      var t1 := Put(b.generation, 8, t2);
      assert w.bytes + rest == w4 + t4;
      assert w4 + t4 == w3 + t3;
      assert w3 + t3 == w2 + t2;
      assert w2 + t2 == w1 + t1;
      assert w1 + t1 == w0 + Put(b.decision, 8, t1);
    }
  }

  method ReadAdaptation(r: Reader) returns (x: Option<AdaptationBinding>)
    requires r.Valid()
    modifies r
    ensures r.Valid()
    ensures x.Some? <==> old(r.Rest()).Some? && GetAdaptation(old(r.Rest()).value).Good?
    ensures x.Some? ==> x.value == GetAdaptation(old(r.Rest()).value).value &&
                        r.Rest() == Some(GetAdaptation(old(r.Rest()).value).rest)
  {
    hide Get;
    var decision := r.Number(8);
    var generation := r.Number(8);
    var policy := r.Number(8);
    var evidence := r.Number(8);
    var digest := r.Number(32);
    if r.failed {
      return None;
    }
    return Some(AdaptationBinding(decision, generation, policy, evidence, digest));
  }

  method WriteConvergence(w: Writer, b: ConvergenceBinding)
    modifies w
    ensures forall rest :: w.bytes + rest == old(w.bytes) + PutConvergence(b, rest)
  {
    hide Put;
    ghost var w0 := w.bytes;
    w.Number(b.plan, 8);
    ghost var w1 := w.bytes;
    w.Number(b.generation, 8);
    ghost var w2 := w.bytes;
    w.Number(b.step, 8);
    ghost var w3 := w.bytes;
    w.Number(b.completion, 32);
    forall rest ensures w.bytes + rest == w0 + PutConvergence(b, rest) {
      var t3 := Put(b.completion, 32, rest);
      var t2 := Put(b.step, 8, t3);
      var t1 := Put(b.generation, 8, t2);
      assert w.bytes + rest == w3 + t3;
      assert w3 + t3 == w2 + t2;
      assert w2 + t2 == w1 + t1;
      assert w1 + t1 == w0 + Put(b.plan, 8, t1);
    }
  }

  method ReadConvergence(r: Reader) returns (x: Option<ConvergenceBinding>)
    requires r.Valid()
    modifies r
    ensures r.Valid()
    ensures x.Some? <==> old(r.Rest()).Some? && GetConvergence(old(r.Rest()).value).Good?
    ensures x.Some? ==> x.value == GetConvergence(old(r.Rest()).value).value &&
                        r.Rest() == Some(GetConvergence(old(r.Rest()).value).rest)
  {
    hide Get;
    var plan := r.Number(8);
    var generation := r.Number(8);
    var step := r.Number(8);
    var completion := r.Number(32);
    if r.failed {
      return None;
    }
    return Some(ConvergenceBinding(plan, generation, step, completion));
  }

  method WriteBindings(w: Writer, b: Bindings)
    modifies w
    ensures forall rest :: w.bytes + rest == old(w.bytes) + PutBindings(b, rest)
  {
    hide Put, Mask, Presence, PutPath, GetPath, PutPlanner, GetPlanner, PutEcmp, GetEcmp, PutWeighted, GetWeighted,
      PutAdaptation, GetAdaptation, PutConvergence, GetConvergence;
    ghost var w0 := w.bytes;
    w.Number(Mask(Presence(b)), 4);
    ghost var w1 := w.bytes;
    if b.path.Some? {
      WritePath(w, b.path.value);
    }
    ghost var w2 := w.bytes;
    if b.planner.Some? {
      WritePlanner(w, b.planner.value);
    }
    ghost var w3 := w.bytes;
    if b.ecmp.Some? {
      WriteEcmp(w, b.ecmp.value);
    }
    ghost var w4 := w.bytes;
    if b.weighted.Some? {
      WriteWeighted(w, b.weighted.value);
    }
    ghost var w5 := w.bytes;
    if b.adaptation.Some? {
      WriteAdaptation(w, b.adaptation.value);
    }
    ghost var w6 := w.bytes;
    if b.convergence.Some? {
      WriteConvergence(w, b.convergence.value);
    }
    ghost var w7 := w.bytes;
    if b.policy.Some? {
      w.Number(b.policy.value, 8);
    }
    forall rest ensures w.bytes + rest == w0 + PutBindings(b, rest) {
      var s7 := if b.policy.Some? then Put(b.policy.value, 8, rest) else rest;
      var s6 := if b.convergence.Some? then PutConvergence(b.convergence.value, s7) else s7;
      var s5 := if b.adaptation.Some? then PutAdaptation(b.adaptation.value, s6) else s6;
      var s4 := if b.weighted.Some? then PutWeighted(b.weighted.value, s5) else s5;
      var s3 := if b.ecmp.Some? then PutEcmp(b.ecmp.value, s4) else s4;
      var s2 := if b.planner.Some? then PutPlanner(b.planner.value, s3) else s3;
      var s1 := if b.path.Some? then PutPath(b.path.value, s2) else s2;
      assert w.bytes + rest == w7 + s7;
      assert w7 + s7 == w6 + s6;
      assert w6 + s6 == w5 + s5;
      assert w5 + s5 == w4 + s4;
      assert w4 + s4 == w3 + s3;
      assert w3 + s3 == w2 + s2;
      assert w2 + s2 == w1 + s1;
      assert w1 + s1 == w0 + Put(Mask(Presence(b)), 4, s1);
    }
  }

  method ReadIfPath(r: Reader, present: bool) returns (x: Option<Option<PathBinding>>)
    requires r.Valid()
    modifies r
    ensures r.Valid()
    ensures x.Some? <==>
              old(r.Rest()).Some? && Maybe(present, GetPath(old(r.Rest()).value), old(r.Rest()).value).Good?
    ensures x.Some? ==>
              var p := Maybe(present, GetPath(old(r.Rest()).value), old(r.Rest()).value);
              x.value == p.value && r.Rest() == Some(p.rest)
  {
    hide GetPath;
    if !present {
      return if r.failed then None else Some(None);
    }
    var b := ReadPath(r);
    return if b.None? then None else Some(Some(b.value));
  }

  method ReadIfPlanner(r: Reader, present: bool) returns (x: Option<Option<PlannerBinding>>)
    requires r.Valid()
    modifies r
    ensures r.Valid()
    ensures x.Some? <==>
              old(r.Rest()).Some? && Maybe(present, GetPlanner(old(r.Rest()).value), old(r.Rest()).value).Good?
    ensures x.Some? ==>
              var p := Maybe(present, GetPlanner(old(r.Rest()).value), old(r.Rest()).value);
              x.value == p.value && r.Rest() == Some(p.rest)
  {
    hide GetPlanner;
    if !present {
      return if r.failed then None else Some(None);
    }
    var b := ReadPlanner(r);
    return if b.None? then None else Some(Some(b.value));
  }

  method ReadIfEcmp(r: Reader, present: bool) returns (x: Option<Option<EcmpBinding>>)
    requires r.Valid()
    modifies r
    ensures r.Valid()
    ensures x.Some? <==>
              old(r.Rest()).Some? && Maybe(present, GetEcmp(old(r.Rest()).value), old(r.Rest()).value).Good?
    ensures x.Some? ==>
              var p := Maybe(present, GetEcmp(old(r.Rest()).value), old(r.Rest()).value);
              x.value == p.value && r.Rest() == Some(p.rest)
  {
    hide GetEcmp;
    if !present {
      return if r.failed then None else Some(None);
    }
    var b := ReadEcmp(r);
    return if b.None? then None else Some(Some(b.value));
  }

  method ReadIfWeighted(r: Reader, present: bool) returns (x: Option<Option<WeightedBinding>>)
    requires r.Valid()
    modifies r
    ensures r.Valid()
    ensures x.Some? <==>
              old(r.Rest()).Some? && Maybe(present, GetWeighted(old(r.Rest()).value), old(r.Rest()).value).Good?
    ensures x.Some? ==>
              var p := Maybe(present, GetWeighted(old(r.Rest()).value), old(r.Rest()).value);
              x.value == p.value && r.Rest() == Some(p.rest)
  {
    hide GetWeighted;
    if !present {
      return if r.failed then None else Some(None);
    }
    var b := ReadWeighted(r);
    return if b.None? then None else Some(Some(b.value));
  }

  method ReadIfAdaptation(r: Reader, present: bool) returns (x: Option<Option<AdaptationBinding>>)
    requires r.Valid()
    modifies r
    ensures r.Valid()
    ensures x.Some? <==>
              old(r.Rest()).Some? && Maybe(present, GetAdaptation(old(r.Rest()).value), old(r.Rest()).value).Good?
    ensures x.Some? ==>
              var p := Maybe(present, GetAdaptation(old(r.Rest()).value), old(r.Rest()).value);
              x.value == p.value && r.Rest() == Some(p.rest)
  {
    hide GetAdaptation;
    if !present {
      return if r.failed then None else Some(None);
    }
    var b := ReadAdaptation(r);
    return if b.None? then None else Some(Some(b.value));
  }

  method ReadIfConvergence(r: Reader, present: bool) returns (x: Option<Option<ConvergenceBinding>>)
    requires r.Valid()
    modifies r
    ensures r.Valid()
    ensures x.Some? <==>
              old(r.Rest()).Some? && Maybe(present, GetConvergence(old(r.Rest()).value), old(r.Rest()).value).Good?
    ensures x.Some? ==>
              var p := Maybe(present, GetConvergence(old(r.Rest()).value), old(r.Rest()).value);
              x.value == p.value && r.Rest() == Some(p.rest)
  {
    hide GetConvergence;
    if !present {
      return if r.failed then None else Some(None);
    }
    var b := ReadConvergence(r);
    return if b.None? then None else Some(Some(b.value));
  }

  method ReadIfPolicy(r: Reader, present: bool) returns (x: Option<Option<nat>>)
    requires r.Valid()
    modifies r
    ensures r.Valid()
    ensures x.Some? <==> old(r.Rest()).Some? && Maybe(present, Get(old(r.Rest()).value, 8), old(r.Rest()).value).Good?
    ensures x.Some? ==>
              var p := Maybe(present, Get(old(r.Rest()).value, 8), old(r.Rest()).value);
              x.value == p.value && r.Rest() == Some(p.rest)
  {
    hide Get;
    if !present {
      return if r.failed then None else Some(None);
    }
    var v := r.Number(8);
    return if r.failed then None else Some(Some(v));
  }

  method ReadLower(r: Reader, mask: nat) returns (x: Option<Bindings>)
    requires r.Valid()
    modifies r
    ensures r.Valid()
    ensures x.Some? <==> old(r.Rest()).Some? && GetLower(mask, old(r.Rest()).value).Good?
    ensures x.Some? ==> r.Rest().Some? && GetLower(mask, old(r.Rest()).value) == Good(x.value, r.Rest().value)
  {
    hide Get, Bit, Maybe, GetPath, GetPlanner, GetEcmp;
    var path := ReadIfPath(r, Bit(mask, 0));
    if path.None? {
      return None;
    }
    var planner := ReadIfPlanner(r, Bit(mask, 1));
    if planner.None? {
      return None;
    }
    var ecmp := ReadIfEcmp(r, Bit(mask, 2));
    if ecmp.None? {
      return None;
    }
    return Some(NO_BINDINGS.(path := path.value, planner := planner.value, ecmp := ecmp.value));
  }

  method ReadUpper(r: Reader, mask: nat, b: Bindings) returns (x: Option<Bindings>)
    requires r.Valid()
    modifies r
    ensures r.Valid()
    ensures x.Some? <==> old(r.Rest()).Some? && GetUpper(mask, b, old(r.Rest()).value).Good?
    ensures x.Some? ==> r.Rest().Some? && GetUpper(mask, b, old(r.Rest()).value) == Good(x.value, r.Rest().value)
  {
    hide Get, Bit, Maybe, GetWeighted, GetAdaptation, GetConvergence;
    var weighted := ReadIfWeighted(r, Bit(mask, 3));
    if weighted.None? {
      return None;
    }
    var adaptation := ReadIfAdaptation(r, Bit(mask, 4));
    if adaptation.None? {
      return None;
    }
    var convergence := ReadIfConvergence(r, Bit(mask, 5));
    if convergence.None? {
      return None;
    }
    var policy := ReadIfPolicy(r, Bit(mask, 6));
    if policy.None? {
      return None;
    }
    return Some(b.(weighted := weighted.value, adaptation := adaptation.value, convergence := convergence.value,
                   policy := policy.value));
  }

  method ReadBindings(r: Reader) returns (x: Option<Bindings>)
    requires r.Valid()
    modifies r
    ensures r.Valid()
    ensures x.Some? <==> old(r.Rest()).Some? && GetBindings(old(r.Rest()).value).Good?
    ensures x.Some? ==> x.value == GetBindings(old(r.Rest()).value).value &&
                        r.Rest() == Some(GetBindings(old(r.Rest()).value).rest)
  {
    hide Get, GetLower, GetUpper;
    var mask := r.Number(4);
    if r.failed || mask >= 128 {
      return None;
    }
    var lower := ReadLower(r, mask);
    if lower.None? {
      return None;
    }
    x := ReadUpper(r, mask, lower.value);
  }

  // ---------------------------------------------------------------------------------------
  // Records and edges
  // ---------------------------------------------------------------------------------------

  method WriteHead(w: Writer, h: NodeHead)
    modifies w
    ensures forall rest :: w.bytes + rest == old(w.bytes) + PutHead(h, rest)
  {
    hide Put, PutEnum;
    ghost var w0 := w.bytes;
    w.Number(h.id, 8);
    ghost var w1 := w.bytes;
    WriteEnum(w, NODE_KINDS, h.kind);
    ghost var w2 := w.bytes;
    WriteEnum(w, REASONS, h.reason);
    ghost var w3 := w.bytes;
    WriteEnum(w, SOURCES, h.source);
    ghost var w4 := w.bytes;
    w.Number(if h.root.Some? then Code(ROOTS, h.root.value) else 0, 2);
    ghost var w5 := w.bytes;
    WriteEnum(w, LIFECYCLES, h.lifecycle);
    ghost var w6 := w.bytes;
    WriteEnum(w, CURRENTNESS, h.currentness);
    ghost var w7 := w.bytes;
    w.Number(if h.revalidationRequired then 1 else 0, 1);
    ghost var w8 := w.bytes;
    w.Number(if h.revalidated then 1 else 0, 1);
    ghost var w9 := w.bytes;
    w.Number(0, 2);
    forall rest ensures w.bytes + rest == w0 + PutHead(h, rest) {
      var t9 := Put(0, 2, rest);
      var t8 := PutFlag(h.revalidated, t9);
      var t7 := PutFlag(h.revalidationRequired, t8);
      var t6 := PutEnum(CURRENTNESS, h.currentness, t7);
      var t5 := PutEnum(LIFECYCLES, h.lifecycle, t6);
      var t4 := PutRoot(h.root, t5);
      var t3 := PutEnum(SOURCES, h.source, t4);
      var t2 := PutEnum(REASONS, h.reason, t3);
      var t1 := PutEnum(NODE_KINDS, h.kind, t2);
      assert w.bytes + rest == w9 + t9;
      assert w9 + t9 == w8 + t8;
      assert w8 + t8 == w7 + t7;
      assert w7 + t7 == w6 + t6;
      assert w6 + t6 == w5 + t5;
      assert w5 + t5 == w4 + t4;
      assert w4 + t4 == w3 + t3;
      assert w3 + t3 == w2 + t2;
      assert w2 + t2 == w1 + t1;
      assert w1 + t1 == w0 + Put(h.id, 8, t1);
    }
  }

  method ReadHead(r: Reader) returns (x: Option<NodeHead>)
    requires r.Valid()
    modifies r
    ensures r.Valid()
    ensures x.Some? <==> old(r.Rest()).Some? && GetHead(old(r.Rest()).value).Good?
    ensures x.Some? ==> x.value == GetHead(old(r.Rest()).value).value &&
                        r.Rest() == Some(GetHead(old(r.Rest()).value).rest)
  {
    hide Get, GetEnum, GetFlag, GetRoot;
    var id := r.Number(8);
    var kind := ReadEnum(r, NODE_KINDS);
    if kind.None? {
      return None;
    }
    var reason := ReadEnum(r, REASONS);
    if reason.None? {
      return None;
    }
    var source := ReadEnum(r, SOURCES);
    if source.None? {
      return None;
    }
    var root := ReadRoot(r);
    if root.None? {
      return None;
    }
    var lifecycle := ReadEnum(r, LIFECYCLES);
    if lifecycle.None? {
      return None;
    }
    var currentness := ReadEnum(r, CURRENTNESS);
    if currentness.None? {
      return None;
    }
    var required := ReadFlag(r);
    if required.None? {
      return None;
    }
    var revalidated := ReadFlag(r);
    if revalidated.None? {
      return None;
    }
    var reserved := r.Number(2);
    if r.failed {
      return None;
    }
    return Some(NodeHead(id, kind.value, reason.value, source.value, root.value, lifecycle.value, currentness.value,
                         required.value, revalidated.value));
  }

  method WriteIds(w: Writer, n: NodeIds)
    modifies w
    ensures forall rest :: w.bytes + rest == old(w.bytes) + PutIds(n, rest)
  {
    hide Put;
    ghost var w0 := w.bytes;
    w.Number(n.lineage, 8);
    ghost var w1 := w.bytes;
    w.Number(n.route, 8);
    ghost var w2 := w.bytes;
    w.Number(n.generation, 8);
    ghost var w3 := w.bytes;
    w.Number(n.corrects, 8);
    ghost var w4 := w.bytes;
    w.Number(n.correctedBy, 8);
    ghost var w5 := w.bytes;
    w.Number(n.digest, 32);
    ghost var w6 := w.bytes;
    w.Number(if n.compacted.Some? then 1 else 0, 1);
    ghost var w7 := w.bytes;
    w.Number(OrZero(n.compacted), 32);
    forall rest ensures w.bytes + rest == w0 + PutIds(n, rest) {
      var t7 := Put(OrZero(n.compacted), 32, rest);
      var t6 := PutFlag(n.compacted.Some?, t7);
      var t5 := Put(n.digest, 32, t6);
      var t4 := Put(n.correctedBy, 8, t5);
      var t3 := Put(n.corrects, 8, t4);
      var t2 := Put(n.generation, 8, t3);
      var t1 := Put(n.route, 8, t2);
      assert w.bytes + rest == w7 + t7;
      assert w7 + t7 == w6 + t6;
      assert w6 + t6 == w5 + t5;
      assert w5 + t5 == w4 + t4;
      assert w4 + t4 == w3 + t3;
      assert w3 + t3 == w2 + t2;
      assert w2 + t2 == w1 + t1;
      assert w1 + t1 == w0 + Put(n.lineage, 8, t1);
    }
  }

  method ReadIds(r: Reader) returns (x: Option<NodeIds>)
    requires r.Valid()
    modifies r
    ensures r.Valid()
    ensures x.Some? <==> old(r.Rest()).Some? && GetIds(old(r.Rest()).value).Good?
    ensures x.Some? ==> x.value == GetIds(old(r.Rest()).value).value &&
                        r.Rest() == Some(GetIds(old(r.Rest()).value).rest)
  {
    hide Get, GetFlag;
    var lineage := r.Number(8);
    var route := r.Number(8);
    var generation := r.Number(8);
    var corrects := r.Number(8);
    var correctedBy := r.Number(8);
    var digest := r.Number(32);
    var has := ReadFlag(r);
    if has.None? {
      return None;
    }
    var compacted := r.Number(32);
    if r.failed {
      return None;
    }
    return Some(NodeIds(lineage, route, generation, corrects, correctedBy, digest,
                        if has.value then Some(compacted) else None));
  }

  method WriteNode(w: Writer, n: Node)
    modifies w
    ensures forall rest :: w.bytes + rest == old(w.bytes) + PutNode(n, rest)
  {
    hide PutHead, PutIds, PutEvidence, PutAuthority, PutBindings, HeadOf, OptionalIds;
    ghost var w0 := w.bytes;
    WriteHead(w, HeadOf(n));
    ghost var w1 := w.bytes;
    WriteIds(w, OptionalIds(n));
    ghost var w2 := w.bytes;
    WriteEvidence(w, n.core.evidence);
    ghost var w3 := w.bytes;
    WriteAuthority(w, n.core.authority);
    ghost var w4 := w.bytes;
    WriteBindings(w, n.core.bindings);
    forall rest ensures w.bytes + rest == w0 + PutNode(n, rest) {
      var t4 := PutBindings(n.core.bindings, rest);
      var t3 := PutAuthority(n.core.authority, t4);
      var t2 := PutEvidence(n.core.evidence, t3);
      var t1 := PutIds(OptionalIds(n), t2);
      assert w.bytes + rest == w4 + t4;
      assert w4 + t4 == w3 + t3;
      assert w3 + t3 == w2 + t2;
      assert w2 + t2 == w1 + t1;
      assert w1 + t1 == w0 + PutHead(HeadOf(n), t1);
    }
  }

  method ReadNode(r: Reader, limits: Limits) returns (x: Option<Node>)
    requires r.Valid()
    modifies r
    ensures r.Valid()
    ensures x.Some? <==> old(r.Rest()).Some? && GetNode(old(r.Rest()).value, limits).Good?
    ensures x.Some? ==> x.value == GetNode(old(r.Rest()).value, limits).value &&
                        r.Rest() == Some(GetNode(old(r.Rest()).value, limits).rest)
  {
    hide GetHead, GetIds, GetEvidence, GetAuthority, GetBindings;
    var h := ReadHead(r);
    if h.None? {
      return None;
    }
    var i := ReadIds(r);
    if i.None? {
      return None;
    }
    var evidence := ReadEvidence(r, limits);
    if evidence.None? {
      return None;
    }
    var authority := ReadAuthority(r);
    if authority.None? {
      return None;
    }
    var bindings := ReadBindings(r);
    if bindings.None? {
      return None;
    }
    return Some(Node(h.value.id,
                     NodeCore(i.value.lineage, h.value.kind, i.value.route, i.value.generation, i.value.digest,
                              h.value.reason, h.value.source, h.value.root, evidence.value, authority.value,
                              bindings.value, UnlessZero(i.value.corrects), i.value.compacted),
                     h.value.lifecycle, h.value.currentness, h.value.revalidationRequired, h.value.revalidated,
                     UnlessZero(i.value.correctedBy)));
  }

  method WriteEdge(w: Writer, e: Edge)
    modifies w
    ensures forall rest :: w.bytes + rest == old(w.bytes) + PutEdge(e, rest)
  {
    hide Put, PutEnum, PutEvidence, PutAuthority;
    ghost var w0 := w.bytes;
    w.Number(e.id, 8);
    ghost var w1 := w.bytes;
    w.Number(e.derivation, 8);
    ghost var w2 := w.bytes;
    w.Number(e.lineage, 8);
    ghost var w3 := w.bytes;
    WriteEnum(w, EDGE_TYPES, e.etype);
    ghost var w4 := w.bytes;
    WriteEnum(w, REASONS, e.reason);
    ghost var w5 := w.bytes;
    WriteEnum(w, SOURCES, e.source);
    ghost var w6 := w.bytes;
    w.Number(0, 2);
    ghost var w7 := w.bytes;
    w.Number(e.from, 8);
    ghost var w8 := w.bytes;
    w.Number(e.to, 8);
    ghost var w9 := w.bytes;
    w.Number(e.predecessor, 8);
    ghost var w10 := w.bytes;
    w.Number(e.successor, 8);
    ghost var w11 := w.bytes;
    WriteEvidence(w, e.evidence);
    ghost var w12 := w.bytes;
    WriteAuthority(w, e.authority);
    forall rest ensures w.bytes + rest == w0 + PutEdge(e, rest) {
      var t12 := PutAuthority(e.authority, rest);
      var t11 := PutEvidence(e.evidence, t12);
      var t10 := Put(e.successor, 8, t11);
      var t9 := Put(e.predecessor, 8, t10);
      var t8 := Put(e.to, 8, t9);
      var t7 := Put(e.from, 8, t8);
      var t6 := Put(0, 2, t7);
      var t5 := PutEnum(SOURCES, e.source, t6);
      var t4 := PutEnum(REASONS, e.reason, t5);
      var t3 := PutEnum(EDGE_TYPES, e.etype, t4);
      var t2 := Put(e.lineage, 8, t3);
      var t1 := Put(e.derivation, 8, t2);
      assert w.bytes + rest == w12 + t12;
      assert w12 + t12 == w11 + t11;
      assert w11 + t11 == w10 + t10;
      assert w10 + t10 == w9 + t9;
      assert w9 + t9 == w8 + t8;
      assert w8 + t8 == w7 + t7;
      assert w7 + t7 == w6 + t6;
      assert w6 + t6 == w5 + t5;
      assert w5 + t5 == w4 + t4;
      assert w4 + t4 == w3 + t3;
      assert w3 + t3 == w2 + t2;
      assert w2 + t2 == w1 + t1;
      assert w1 + t1 == w0 + Put(e.id, 8, t1);
    }
  }

  method ReadEdge(r: Reader, limits: Limits) returns (x: Option<Edge>)
    requires r.Valid()
    modifies r
    ensures r.Valid()
    ensures x.Some? <==> old(r.Rest()).Some? && GetEdge(old(r.Rest()).value, limits).Good?
    ensures x.Some? ==> x.value == GetEdge(old(r.Rest()).value, limits).value &&
                        r.Rest() == Some(GetEdge(old(r.Rest()).value, limits).rest)
  {
    hide Get, GetEnum, GetEvidence, GetAuthority;
    var id := r.Number(8);
    var derivation := r.Number(8);
    var lineage := r.Number(8);
    var etype := ReadEnum(r, EDGE_TYPES);
    if etype.None? {
      return None;
    }
    var reason := ReadEnum(r, REASONS);
    if reason.None? {
      return None;
    }
    var source := ReadEnum(r, SOURCES);
    if source.None? {
      return None;
    }
    var reserved := r.Number(2);
    var from := r.Number(8);
    var to := r.Number(8);
    var predecessor := r.Number(8);
    var successor := r.Number(8);
    var evidence := ReadEvidence(r, limits);
    if evidence.None? {
      return None;
    }
    var authority := ReadAuthority(r);
    if authority.None? {
      return None;
    }
    return Some(Edge(id, derivation, lineage, etype.value, from, to, predecessor, successor, reason.value, source.value,
                     evidence.value, authority.value));
  }

  // ---------------------------------------------------------------------------------------
  // Attempts
  // ---------------------------------------------------------------------------------------

  method WriteNats(w: Writer, ids: seq<nat>)
    modifies w
    ensures forall rest :: w.bytes + rest == old(w.bytes) + PutNats(ids, rest)
  {
    hide Put;
    var i := 0;
    assert ids[0..] == ids;
    while i < |ids|
      invariant 0 <= i <= |ids|
      invariant forall rest :: w.bytes + PutNats(ids[i..], rest) == old(w.bytes) + PutNats(ids, rest)
    {
      ghost var before := w.bytes;
      w.Number(ids[i], 8);
      forall rest ensures w.bytes + PutNats(ids[i + 1..], rest) == old(w.bytes) + PutNats(ids, rest) {
        assert ids[i..][1..] == ids[i + 1..];
        var tail := PutNats(ids[i + 1..], rest);
        assert w.bytes + tail == before + Put(ids[i], 8, tail);
        assert before + PutNats(ids[i..], rest) == old(w.bytes) + PutNats(ids, rest);
      }
      i := i + 1;
    }
    assert ids[i..] == [];
    forall rest ensures w.bytes + rest == old(w.bytes) + PutNats(ids, rest) {
      assert w.bytes + PutNats(ids[i..], rest) == old(w.bytes) + PutNats(ids, rest);
    }
  }

  lemma NatsStep(s: seq<Byte>, n: nat)
    requires n > 0
    ensures
      var a := Get(s, 8);
      if a.Bad? then GetNats(s, n).Bad?
      else
        var more := GetNats(a.rest, n - 1);
        GetNats(s, n) == if more.Bad? then Bad else Good([a.value] + more.value, more.rest)
    ensures GetNats(s, 0) == Good([], s)
  {
    hide Get;
  }

  method ReadNats(r: Reader, n: nat) returns (ids: Option<seq<nat>>)
    requires r.Valid()
    modifies r
    ensures r.Valid()
    ensures old(r.Rest()).Some? && GetNats(old(r.Rest()).value, n).Good? ==>
              ids == Some(GetNats(old(r.Rest()).value, n).value) &&
              r.Rest() == Some(GetNats(old(r.Rest()).value, n).rest)
    ensures old(r.Rest()).None? || GetNats(old(r.Rest()).value, n).Bad? ==> ids.None?
  {
    hide Get, GetNats;
    if r.failed {
      return None;
    }
    ghost var s := r.Rest().value;
    var done: seq<nat> := [];
    var i := 0;
    NothingThen(GetNats(s, n));
    while i < n
      invariant 0 <= i <= n && r.Valid() && !r.failed
      invariant GetNats(s, n) == Then(done, GetNats(r.Rest().value, n - i))
    {
      NatsStep(r.Rest().value, n - i);
      var id := r.Number(8);
      if r.failed {
        return None;
      }
      ThenStep(done, id, GetNats(r.Rest().value, n - i - 1));
      done := done + [id];
      i := i + 1;
    }
    NatsNone(r.Rest().value);
    ThenNothing(done, r.Rest().value);
    return Some(done);
  }

  lemma NatsNone(s: seq<Byte>)
    ensures GetNats(s, 0) == Good([], s)
  {
  }

  method WriteAttempt(w: Writer, a: StoredAttempt)
    modifies w
    ensures forall rest :: w.bytes + rest == old(w.bytes) + PutAttempt(a, rest)
  {
    hide Put, PutEnum, PutNats;
    ghost var w0 := w.bytes;
    w.Number(a.publisher, 8);
    ghost var w1 := w.bytes;
    w.Number(a.attempt, 8);
    ghost var w2 := w.bytes;
    w.Number(a.record.request, 32);
    ghost var w3 := w.bytes;
    w.Number(a.record.node, 8);
    ghost var w4 := w.bytes;
    WriteEnum(w, OUTCOMES, a.record.outcome);
    ghost var w5 := w.bytes;
    WriteEnum(w, LIFECYCLES, a.record.lifecycle);
    ghost var w6 := w.bytes;
    WriteEnum(w, CURRENTNESS, a.record.currentness);
    ghost var w7 := w.bytes;
    w.Number(0, 2);
    ghost var w8 := w.bytes;
    w.Number(|a.record.edges|, 4);
    ghost var w9 := w.bytes;
    WriteNats(w, a.record.edges);
    forall rest ensures w.bytes + rest == w0 + PutAttempt(a, rest) {
      var t9 := PutNats(a.record.edges, rest);
      var t8 := Put(|a.record.edges|, 4, t9);
      var t7 := Put(0, 2, t8);
      var t6 := PutEnum(CURRENTNESS, a.record.currentness, t7);
      var t5 := PutEnum(LIFECYCLES, a.record.lifecycle, t6);
      var t4 := PutEnum(OUTCOMES, a.record.outcome, t5);
      var t3 := Put(a.record.node, 8, t4);
      var t2 := Put(a.record.request, 32, t3);
      var t1 := Put(a.attempt, 8, t2);
      assert w.bytes + rest == w9 + t9;
      assert w9 + t9 == w8 + t8;
      assert w8 + t8 == w7 + t7;
      assert w7 + t7 == w6 + t6;
      assert w6 + t6 == w5 + t5;
      assert w5 + t5 == w4 + t4;
      assert w4 + t4 == w3 + t3;
      assert w3 + t3 == w2 + t2;
      assert w2 + t2 == w1 + t1;
      assert w1 + t1 == w0 + Put(a.publisher, 8, t1);
    }
  }

  method ReadAttempt(r: Reader, limits: Limits) returns (x: Option<StoredAttempt>)
    requires r.Valid()
    modifies r
    ensures r.Valid()
    ensures x.Some? <==> old(r.Rest()).Some? && GetAttempt(old(r.Rest()).value, limits).Good?
    ensures x.Some? ==> x.value == GetAttempt(old(r.Rest()).value, limits).value &&
                        r.Rest() == Some(GetAttempt(old(r.Rest()).value, limits).rest)
  {
    hide Get, GetEnum, GetNats;
    var publisher := r.Number(8);
    var attempt := r.Number(8);
    var request := r.Number(32);
    var node := r.Number(8);
    var outcome := ReadEnum(r, OUTCOMES);
    if outcome.None? {
      return None;
    }
    var lifecycle := ReadEnum(r, LIFECYCLES);
    if lifecycle.None? {
      return None;
    }
    var currentness := ReadEnum(r, CURRENTNESS);
    if currentness.None? {
      return None;
    }
    var reserved := r.Number(2);
    var count := r.Number(4);
    if r.failed {
      return None;
    }
    if count > limits.maxEdges {
      return None;
    }
    var edges := ReadNats(r, count);
    if edges.None? {
      return None;
    }
    return Some(StoredAttempt(publisher, attempt,
                              AttemptRecord(request, node, edges.value, outcome.value, lifecycle.value,
                                            currentness.value)));
  }
}
