// The store image as the program writes and reads it (src/persistence.cpp): loops over a writer
// and a reader, with the sets of identities met so far. Each method is proved against the
// function of ImageCodec that the round trip is about.
module ImageStreams {
  import opened Types
  import opened GraphModel
  import opened StoreTypes
  import opened Bytes
  import opened Images
  import opened Codec
  import opened ImageCodec
  import opened Streams
  import opened CodecStreams
  import opened LineageObjects
  import GraphClass = ProvenanceGraphClass

  // ---------------------------------------------------------------------------------------
  // Writing
  // ---------------------------------------------------------------------------------------

  method WriteLineageHead(w: Writer, h: LineageHead)
    modifies w
    ensures forall rest :: w.bytes + rest == old(w.bytes) + PutLineageHead(h, rest)
  {
    hide Put, PutEnum, PutText;
    ghost var w0 := w.bytes;
    w.Number(h.state.id, 8);
    ghost var w1 := w.bytes;
    w.Number(h.state.key.route, 8);
    ghost var w2 := w.bytes;
    w.Text(h.state.key.name);
    ghost var w3 := w.bytes;
    WriteEnum(w, LINEAGE_LIFECYCLES, h.state.lifecycle);
    ghost var w4 := w.bytes;
    w.Number(0, 2);
    ghost var w5 := w.bytes;
    WritePosition(w, h.state);
    ghost var w6 := w.bytes;
    WriteCounts(w, h);
    forall rest ensures w.bytes + rest == w0 + PutLineageHead(h, rest) {
      var t6 := PutCounts(h, rest);
      var t5 := PutPosition(h.state, t6);
      var t4 := Put(0, 2, t5);
      var t3 := PutEnum(LINEAGE_LIFECYCLES, h.state.lifecycle, t4);
      var t2 := PutText(h.state.key.name, t3);
      var t1 := Put(h.state.key.route, 8, t2);
      assert w.bytes + rest == w6 + t6;
      assert w6 + t6 == w5 + t5;
      assert w5 + t5 == w4 + t4;
      assert w4 + t4 == w3 + t3;
      assert w3 + t3 == w2 + t2;
      assert w2 + t2 == w1 + t1;
      assert w1 + t1 == w0 + Put(h.state.id, 8, t1);
    }
  }

  method WritePosition(w: Writer, st: LineageState)
    modifies w
    ensures forall rest :: w.bytes + rest == old(w.bytes) + PutPosition(st, rest)
  {
    hide Put;
    ghost var w0 := w.bytes;
    w.Number(st.generation, 8);
    ghost var w1 := w.bytes;
    w.Number(st.currentNode, 8);
    ghost var w2 := w.bytes;
    w.Number(st.lineageGeneration, 8);
    ghost var w3 := w.bytes;
    w.Number(st.authorityGeneration, 8);
    ghost var w4 := w.bytes;
    w.Number(st.lastBoot, 8);
    forall rest ensures w.bytes + rest == w0 + PutPosition(st, rest) {
      var t4 := Put(st.lastBoot, 8, rest);
      var t3 := Put(st.authorityGeneration, 8, t4);
      var t2 := Put(st.lineageGeneration, 8, t3);
      var t1 := Put(st.currentNode, 8, t2);
      assert w.bytes + rest == w4 + t4;
      assert w4 + t4 == w3 + t3;
      assert w3 + t3 == w2 + t2;
      assert w2 + t2 == w1 + t1;
      assert w1 + t1 == w0 + Put(st.generation, 8, t1);
    }
  }

  method WriteCounts(w: Writer, h: LineageHead)
    modifies w
    ensures forall rest :: w.bytes + rest == old(w.bytes) + PutCounts(h, rest)
  {
    hide Put;
    ghost var w0 := w.bytes;
    w.Number(h.nodes, 4);
    ghost var w1 := w.bytes;
    w.Number(h.edges, 4);
    ghost var w2 := w.bytes;
    w.Number(h.attempts, 4);
    ghost var w3 := w.bytes;
    w.Number(0, 4);
    forall rest ensures w.bytes + rest == w0 + PutCounts(h, rest) {
      var t3 := Put(0, 4, rest);
      var t2 := Put(h.attempts, 4, t3);
      var t1 := Put(h.edges, 4, t2);
      assert w.bytes + rest == w3 + t3;
      assert w3 + t3 == w2 + t2;
      assert w2 + t2 == w1 + t1;
      assert w1 + t1 == w0 + Put(h.nodes, 4, t1);
    }
  }

  method WriteNodes(w: Writer, nodes: seq<Node>)
    modifies w
    ensures forall rest :: w.bytes + rest == old(w.bytes) + PutNodes(nodes, rest)
  {
    hide PutNode;
    assert nodes[0..] == nodes;
    var i := 0;
    while i < |nodes|
      invariant 0 <= i <= |nodes|
      invariant forall rest :: w.bytes + PutNodes(nodes[i..], rest) == old(w.bytes) + PutNodes(nodes, rest)
    {
      ghost var before := w.bytes;
      WriteNode(w, nodes[i]);
      forall rest ensures w.bytes + PutNodes(nodes[i + 1..], rest) == old(w.bytes) + PutNodes(nodes, rest) {
        assert nodes[i..][1..] == nodes[i + 1..];
        var tail := PutNodes(nodes[i + 1..], rest);
        assert w.bytes + tail == before + PutNode(nodes[i], tail);
        assert before + PutNodes(nodes[i..], rest) == old(w.bytes) + PutNodes(nodes, rest);
      }
      i := i + 1;
    }
    assert nodes[i..] == [];
    forall rest ensures w.bytes + rest == old(w.bytes) + PutNodes(nodes, rest) {
      assert w.bytes + PutNodes(nodes[i..], rest) == old(w.bytes) + PutNodes(nodes, rest);
    }
  }

  method WriteEdges(w: Writer, edges: seq<Edge>)
    modifies w
    ensures forall rest :: w.bytes + rest == old(w.bytes) + PutEdges(edges, rest)
  {
    hide PutEdge;
    assert edges[0..] == edges;
    var i := 0;
    while i < |edges|
      invariant 0 <= i <= |edges|
      invariant forall rest :: w.bytes + PutEdges(edges[i..], rest) == old(w.bytes) + PutEdges(edges, rest)
    {
      ghost var before := w.bytes;
      WriteEdge(w, edges[i]);
      forall rest ensures w.bytes + PutEdges(edges[i + 1..], rest) == old(w.bytes) + PutEdges(edges, rest) {
        assert edges[i..][1..] == edges[i + 1..];
        var tail := PutEdges(edges[i + 1..], rest);
        assert w.bytes + tail == before + PutEdge(edges[i], tail);
        assert before + PutEdges(edges[i..], rest) == old(w.bytes) + PutEdges(edges, rest);
      }
      i := i + 1;
    }
    assert edges[i..] == [];
    forall rest ensures w.bytes + rest == old(w.bytes) + PutEdges(edges, rest) {
      assert w.bytes + PutEdges(edges[i..], rest) == old(w.bytes) + PutEdges(edges, rest);
    }
  }

  method WriteAttempts(w: Writer, attempts: seq<StoredAttempt>)
    modifies w
    ensures forall rest :: w.bytes + rest == old(w.bytes) + PutAttempts(attempts, rest)
  {
    hide PutAttempt;
    assert attempts[0..] == attempts;
    var i := 0;
    while i < |attempts|
      invariant 0 <= i <= |attempts|
      invariant forall rest :: w.bytes + PutAttempts(attempts[i..], rest) == old(w.bytes) + PutAttempts(attempts, rest)
    {
      ghost var before := w.bytes;
      WriteAttempt(w, attempts[i]);
      forall rest ensures w.bytes + PutAttempts(attempts[i + 1..], rest) == old(w.bytes) + PutAttempts(attempts, rest) {
        assert attempts[i..][1..] == attempts[i + 1..];
        var tail := PutAttempts(attempts[i + 1..], rest);
        assert w.bytes + tail == before + PutAttempt(attempts[i], tail);
        assert before + PutAttempts(attempts[i..], rest) == old(w.bytes) + PutAttempts(attempts, rest);
      }
      i := i + 1;
    }
    assert attempts[i..] == [];
    forall rest ensures w.bytes + rest == old(w.bytes) + PutAttempts(attempts, rest) {
      assert w.bytes + PutAttempts(attempts[i..], rest) == old(w.bytes) + PutAttempts(attempts, rest);
    }
  }

  method WriteLineage(w: Writer, l: StoredLineage)
    modifies w
    ensures forall rest :: w.bytes + rest == old(w.bytes) + PutLineage(l, rest)
  {
    hide PutLineageHead, PutNodes, PutEdges, PutAttempts;
    ghost var w0 := w.bytes;
    WriteLineageHead(w, HeadOfLineage(l));
    ghost var w1 := w.bytes;
    WriteNodes(w, l.nodes);
    ghost var w2 := w.bytes;
    WriteEdges(w, l.edges);
    ghost var w3 := w.bytes;
    WriteAttempts(w, l.attempts);
    forall rest ensures w.bytes + rest == w0 + PutLineage(l, rest) {
      var t3 := PutAttempts(l.attempts, rest);
      var t2 := PutEdges(l.edges, t3);
      var t1 := PutNodes(l.nodes, t2);
      assert w.bytes + rest == w3 + t3;
      assert w3 + t3 == w2 + t2;
      assert w2 + t2 == w1 + t1;
      assert w1 + t1 == w0 + PutLineageHead(HeadOfLineage(l), t1);
    }
  }

  /** The records of the lineages, or nothing when one exceeds the record bound. */
  ghost predicate Written(before: seq<Byte>, after: seq<Byte>, lineages: seq<StoredLineage>) {
    after == before + PutLineages(lineages, [])
  }

  lemma RecordSize(before: seq<Byte>, after: seq<Byte>, lineages: seq<StoredLineage>, i: nat)
    requires i < |lineages|
    requires forall rest :: after + rest == before + PutLineage(lineages[i], rest)
    ensures after + PutLineages(lineages[i + 1..], []) == before + PutLineages(lineages[i..], [])
    ensures |after| - |before| == |PutLineages(lineages[i..], [])| - |PutLineages(lineages[i..][1..], [])|
    ensures lineages[i..][1..] == lineages[i + 1..]
  {
    hide PutLineage;
    assert lineages[i..][1..] == lineages[i + 1..] && lineages[i..][0] == lineages[i];
    var tail := PutLineages(lineages[i + 1..], []);
    assert after + tail == before + PutLineage(lineages[i], tail);
  }

  method WriteLineages(w: Writer, lineages: seq<StoredLineage>, limits: Limits) returns (ok: bool)
    modifies w
    ensures ok <==> RecordsFit(lineages, limits)
    ensures ok ==> Written(old(w.bytes), w.bytes, lineages)
  {
    hide PutLineage;
    assert lineages[0..] == lineages;
    var i := 0;
    while i < |lineages|
      invariant 0 <= i <= |lineages|
      invariant w.bytes + PutLineages(lineages[i..], []) == old(w.bytes) + PutLineages(lineages, [])
      invariant RecordsFit(lineages[i..], limits) <==> RecordsFit(lineages, limits)
    {
      ghost var before := w.bytes;
      var start := |w.bytes|;
      WriteLineage(w, lineages[i]);
      RecordSize(before, w.bytes, lineages, i);
      if |w.bytes| - start > limits.maxRecordBytes {
        return false;
      }
      i := i + 1;
    }
    assert lineages[i..] == [] && w.bytes + [] == w.bytes;
    return true;
  }

  method WriteImageHead(w: Writer, h: ImageHead)
    modifies w
    ensures forall rest :: w.bytes + rest == old(w.bytes) + PutImageHead(h, rest)
  {
    hide PutVersions, PutMarks, PutSizes;
    ghost var w0 := w.bytes;
    WriteVersions(w);
    ghost var w1 := w.bytes;
    WriteMarks(w, h.marks);
    ghost var w2 := w.bytes;
    WriteSizes(w, h);
    forall rest ensures w.bytes + rest == w0 + PutImageHead(h, rest) {
      var t2 := PutSizes(h, rest);
      var t1 := PutMarks(h.marks, t2);
      assert w.bytes + rest == w2 + t2;
      assert w2 + t2 == w1 + t1;
      assert w1 + t1 == w0 + PutVersions(t1);
    }
  }

  method WriteVersions(w: Writer)
    modifies w
    ensures forall rest :: w.bytes + rest == old(w.bytes) + PutVersions(rest)
  {
    hide Put;
    ghost var w0 := w.bytes;
    w.Number(MAGIC, 8);
    ghost var w1 := w.bytes;
    w.Number(VERSION, 4);
    ghost var w2 := w.bytes;
    w.Number(HEADER_SIZE, 4);
    ghost var w3 := w.bytes;
    WriteEncodings(w);
    forall rest ensures w.bytes + rest == w0 + PutVersions(rest) {
      var t3 := Put(VERSION, 4, Put(VERSION, 4, Put(0, 4, Put(0, 4, rest))));
      var t2 := Put(HEADER_SIZE, 4, t3);
      var t1 := Put(VERSION, 4, t2);
      assert w.bytes + rest == w3 + t3;
      assert w3 + t3 == w2 + t2;
      assert w2 + t2 == w1 + t1;
      assert w1 + t1 == w0 + Put(MAGIC, 8, t1);
    }
  }

  /** The encoding versions, the flags and the reserved word. */
  method WriteEncodings(w: Writer)
    modifies w
    ensures forall rest ::
              w.bytes + rest == old(w.bytes) + Put(VERSION, 4, Put(VERSION, 4, Put(0, 4, Put(0, 4, rest))))
  {
    hide Put;
    ghost var w0 := w.bytes;
    w.Number(VERSION, 4);
    w.Number(VERSION, 4);
    ghost var w2 := w.bytes;
    assert forall rest :: w2 + rest == w0 + Put(VERSION, 4, Put(VERSION, 4, rest));
    WriteZeros(w);
    forall rest
      ensures w.bytes + rest == w0 + Put(VERSION, 4, Put(VERSION, 4, Put(0, 4, Put(0, 4, rest))))
    {
      assert w.bytes + rest == w2 + Put(0, 4, Put(0, 4, rest));
    }
  }

  method WriteZeros(w: Writer)
    modifies w
    ensures forall rest :: w.bytes + rest == old(w.bytes) + Put(0, 4, Put(0, 4, rest))
  {
    hide Put;
    w.Number(0, 4);
    w.Number(0, 4);
  }

  method WriteMarks(w: Writer, m: Watermarks)
    modifies w
    ensures forall rest :: w.bytes + rest == old(w.bytes) + PutMarks(m, rest)
  {
    hide Put;
    ghost var w0 := w.bytes;
    w.Number(m.store, 8);
    ghost var w1 := w.bytes;
    w.Number(m.epoch, 8);
    ghost var w2 := w.bytes;
    w.Number(m.path, 8);
    ghost var w3 := w.bytes;
    w.Number(m.policy, 8);
    ghost var w4 := w.bytes;
    w.Number(m.evidence, 8);
    ghost var w5 := w.bytes;
    w.Number(m.plan, 8);
    forall rest ensures w.bytes + rest == w0 + PutMarks(m, rest) {
      var t5 := Put(m.plan, 8, rest);
      var t4 := Put(m.evidence, 8, t5);
      var t3 := Put(m.policy, 8, t4);
      var t2 := Put(m.path, 8, t3);
      var t1 := Put(m.epoch, 8, t2);
      assert w.bytes + rest == w5 + t5;
      assert w5 + t5 == w4 + t4;
      assert w4 + t4 == w3 + t3;
      assert w3 + t3 == w2 + t2;
      assert w2 + t2 == w1 + t1;
      assert w1 + t1 == w0 + Put(m.store, 8, t1);
    }
  }

  method WriteSizes(w: Writer, h: ImageHead)
    modifies w
    ensures forall rest :: w.bytes + rest == old(w.bytes) + PutSizes(h, rest)
  {
    hide Put;
    ghost var w0 := w.bytes;
    w.Number(h.lineages, 4);
    ghost var w1 := w.bytes;
    w.Number(h.nodes, 4);
    ghost var w2 := w.bytes;
    w.Number(h.edges, 4);
    ghost var w3 := w.bytes;
    w.Number(0, 4);
    ghost var w4 := w.bytes;
    w.Number(h.body, 8);
    ghost var w5 := w.bytes;
    w.Number(0, 24);
    forall rest ensures w.bytes + rest == w0 + PutSizes(h, rest) {
      var t5 := Put(0, 24, rest);
      var t4 := Put(h.body, 8, t5);
      var t3 := Put(0, 4, t4);
      var t2 := Put(h.edges, 4, t3);
      var t1 := Put(h.nodes, 4, t2);
      assert w.bytes + rest == w5 + t5;
      assert w5 + t5 == w4 + t4;
      assert w4 + t4 == w3 + t3;
      assert w3 + t3 == w2 + t2;
      assert w2 + t2 == w1 + t1;
      assert w1 + t1 == w0 + Put(h.lineages, 4, t1);
    }
  }

  method CountRecords(lineages: seq<StoredLineage>) returns (nodes: nat, edges: nat)
    ensures nodes == NodeCount(lineages) && edges == EdgeCount(lineages)
  {
    nodes, edges := 0, 0;
    assert lineages[0..] == lineages;
    var i := 0;
    while i < |lineages|
      invariant 0 <= i <= |lineages|
      invariant nodes + NodeCount(lineages[i..]) == NodeCount(lineages)
      invariant edges + EdgeCount(lineages[i..]) == EdgeCount(lineages)
    {
      assert lineages[i..][1..] == lineages[i + 1..];
      nodes, edges := nodes + |lineages[i].nodes|, edges + |lineages[i].edges|;
      i := i + 1;
    }
  }

  /** The whole image: the body first, then the header in front of it and the trailer behind. */
  method EncodeStoreImage(hash: seq<Byte> -> nat, image: StoreImage, limits: Limits) returns (r: Result<seq<Byte>>)
    ensures r == EncodeImage(hash, image, limits)
  {
    hide PutImageHead, PutLineages, RecordsFit, NodeCount, EdgeCount, Put;
    if |image.lineages| > limits.maxLineages {
      return Failure(ResourceLimit);
    }
    var nodes, edges := CountRecords(image.lineages);
    if nodes > limits.maxImageNodes || edges > limits.maxImageEdges {
      return Failure(ResourceLimit);
    }
    var body := new Writer();
    var fits := WriteLineages(body, image.lineages, limits);
    if !fits {
      return Failure(ResourceLimit);
    }
    assert body.bytes == PutLineages(image.lineages, []);
    if |body.bytes| > limits.maxStoreBytes {
      return Failure(ResourceLimit);
    }
    var head := ImageHead(image.marks, |image.lineages|, nodes, edges, |body.bytes|);
    var w := new Writer();
    WriteImageHead(w, head);
    assert w.bytes + body.bytes == Sealed(image);
    var trailer := new Writer();
    trailer.Number(hash(w.bytes + body.bytes), TRAILER_SIZE);
    ghost var digest := Put(hash(w.bytes + body.bytes), TRAILER_SIZE, []);
    assert trailer.bytes + [] == trailer.bytes && [] + digest == digest;
    assert trailer.bytes == digest;
    var bytes := w.bytes + body.bytes + trailer.bytes;
    if |bytes| > limits.maxStoreBytes {
      return Failure(ResourceLimit);
    }
    return Success(bytes);
  }

  // ---------------------------------------------------------------------------------------
  // Reading
  // ---------------------------------------------------------------------------------------

  method ReadLineageHead(r: Reader, limits: Limits) returns (x: Option<LineageHead>)
    requires r.Valid()
    modifies r
    ensures r.Valid()
    ensures x.Some? <==> old(r.Rest()).Some? && GetLineageHead(old(r.Rest()).value, limits).Good?
    ensures x.Some? ==> x.value == GetLineageHead(old(r.Rest()).value, limits).value &&
                        r.Rest() == Some(GetLineageHead(old(r.Rest()).value, limits).rest)
  {
    hide Get, GetEnum, GetText;
    var id := r.Number(8);
    var route := r.Number(8);
    var name := r.Text(limits.maxKeyBytes);
    var lifecycle := ReadEnum(r, LINEAGE_LIFECYCLES);
    if lifecycle.None? {
      return None;
    }
    var reserved := r.Number(2);
    var generation := r.Number(8);
    var currentNode := r.Number(8);
    var lineageGeneration := r.Number(8);
    var authorityGeneration := r.Number(8);
    var lastBoot := r.Number(8);
    var nodes := r.Number(4);
    var edges := r.Number(4);
    var attempts := r.Number(4);
    var reserved' := r.Number(4);
    if r.failed {
      return None;
    }
    return Some(LineageHead(
      LineageState(id, LineageKey(route, name), lifecycle.value, generation, currentNode, lineageGeneration,
                   authorityGeneration, 0, 0, 0, 0, lastBoot, 0),
      nodes, edges, attempts));
  }

  /** What reading the remaining records would give, after those already read. */
  ghost function ThenSeen<T>(done: seq<T>, p: Parsed<(seq<T>, Seen)>): Parsed<(seq<T>, Seen)> {
    if p.Bad? then Bad else Good((done + p.value.0, p.value.1), p.rest)
  }

  lemma NothingThenSeen<T>(p: Parsed<(seq<T>, Seen)>)
    ensures ThenSeen([], p) == p
  {
    if p.Good? {
      assert [] + p.value.0 == p.value.0;
    }
  }

  lemma NodesStep(env: Env, s: seq<Byte>, n: nat, lid: nat, seen: Seen, done: seq<Node>)
    requires n > 0
    ensures
      var first := GetNode(s, env.limits);
      var all := ThenSeen(done, ReadNodes(env, s, n, lid, seen));
      if first.Bad? || !NodeAccepted(env, lid, seen, first.value) then all.Bad?
      else all == ThenSeen(done + [first.value], ReadNodes(env, first.rest, n - 1, lid, SeeNode(seen, first.value)))
  {
    hide GetNode, NodeAccepted;
    var first := GetNode(s, env.limits);
    if first.Good? {
      var more := ReadNodes(env, first.rest, n - 1, lid, SeeNode(seen, first.value));
      if more.Good? {
        assert done + ([first.value] + more.value.0) == done + [first.value] + more.value.0;
      }
    }
  }

  lemma NodesDone(env: Env, s: seq<Byte>, lid: nat, seen: Seen, done: seq<Node>)
    ensures ThenSeen(done, ReadNodes(env, s, 0, lid, seen)) == Good((done, seen), s)
  {
    assert done + [] == done;
  }

  method ReadStoredNodes(r: Reader, env: Env, n: nat, lid: nat, before: Seen)
    returns (x: Option<(seq<Node>, Seen)>)
    requires r.Valid() && r.Rest().Some?
    modifies r
    ensures r.Valid()
    ensures x.Some? <==> ReadNodes(env, old(r.Rest()).value, n, lid, before).Good?
    ensures x.Some? ==> x.value == ReadNodes(env, old(r.Rest()).value, n, lid, before).value &&
                        r.Rest() == Some(ReadNodes(env, old(r.Rest()).value, n, lid, before).rest)
  {
    hide GetNode, NodeAccepted, ReadNodes;
    ghost var whole := ReadNodes(env, r.Rest().value, n, lid, before);
    NothingThenSeen(whole);
    var nodes: seq<Node> := [];
    var seen := before;
    var i := 0;
    while i < n
      invariant 0 <= i <= n && r.Valid() && r.Rest().Some?
      invariant ThenSeen(nodes, ReadNodes(env, r.Rest().value, n - i, lid, seen)) == whole
    {
      NodesStep(env, r.Rest().value, n - i, lid, seen, nodes);
      var node := ReadNode(r, env.limits);
      if node.None? {
        return None;
      }
      if !NodeAccepted(env, lid, seen, node.value) {
        return None;
      }
      seen := SeeNode(seen, node.value);
      nodes := nodes + [node.value];
      i := i + 1;
    }
    NodesDone(env, r.Rest().value, lid, seen, nodes);
    return Some((nodes, seen));
  }

  lemma EdgesStep(env: Env, s: seq<Byte>, n: nat, lid: nat, seen: Seen, done: seq<Edge>)
    requires n > 0
    ensures
      var first := GetEdge(s, env.limits);
      var all := ThenSeen(done, ReadEdges(env, s, n, lid, seen));
      if first.Bad? || !EdgeAccepted(env, lid, seen, first.value) then all.Bad?
      else all == ThenSeen(done + [first.value], ReadEdges(env, first.rest, n - 1, lid, SeeEdge(seen, first.value)))
  {
    hide GetEdge, EdgeAccepted;
    var first := GetEdge(s, env.limits);
    if first.Good? {
      var more := ReadEdges(env, first.rest, n - 1, lid, SeeEdge(seen, first.value));
      if more.Good? {
        assert done + ([first.value] + more.value.0) == done + [first.value] + more.value.0;
      }
    }
  }

  lemma EdgesDone(env: Env, s: seq<Byte>, lid: nat, seen: Seen, done: seq<Edge>)
    ensures ThenSeen(done, ReadEdges(env, s, 0, lid, seen)) == Good((done, seen), s)
  {
    assert done + [] == done;
  }

  method ReadStoredEdges(r: Reader, env: Env, n: nat, lid: nat, before: Seen)
    returns (x: Option<(seq<Edge>, Seen)>)
    requires r.Valid() && r.Rest().Some?
    modifies r
    ensures r.Valid()
    ensures x.Some? <==> ReadEdges(env, old(r.Rest()).value, n, lid, before).Good?
    ensures x.Some? ==> x.value == ReadEdges(env, old(r.Rest()).value, n, lid, before).value &&
                        r.Rest() == Some(ReadEdges(env, old(r.Rest()).value, n, lid, before).rest)
  {
    hide GetEdge, EdgeAccepted, ReadEdges;
    ghost var whole := ReadEdges(env, r.Rest().value, n, lid, before);
    NothingThenSeen(whole);
    var edges: seq<Edge> := [];
    var seen := before;
    var i := 0;
    while i < n
      invariant 0 <= i <= n && r.Valid() && r.Rest().Some?
      invariant ThenSeen(edges, ReadEdges(env, r.Rest().value, n - i, lid, seen)) == whole
    {
      EdgesStep(env, r.Rest().value, n - i, lid, seen, edges);
      var edge := ReadEdge(r, env.limits);
      if edge.None? {
        return None;
      }
      if !EdgeAccepted(env, lid, seen, edge.value) {
        return None;
      }
      seen := SeeEdge(seen, edge.value);
      edges := edges + [edge.value];
      i := i + 1;
    }
    EdgesDone(env, r.Rest().value, lid, seen, edges);
    return Some((edges, seen));
  }

  lemma AttemptsStep(s: seq<Byte>, n: nat, limits: Limits)
    requires n > 0
    ensures
      var first := GetAttempt(s, limits);
      if first.Bad? || !AttemptAccepted(first.value) then ReadAttempts(s, n, limits).Bad?
      else
        var more := ReadAttempts(first.rest, n - 1, limits);
        ReadAttempts(s, n, limits) == if more.Bad? then Bad else Good([first.value] + more.value, more.rest)
    ensures ReadAttempts(s, 0, limits) == Good([], s)
  {
    hide GetAttempt;
  }

  lemma AttemptsNone(s: seq<Byte>, limits: Limits)
    ensures ReadAttempts(s, 0, limits) == Good([], s)
  {
  }

  method ReadStoredAttempts(r: Reader, n: nat, limits: Limits) returns (x: Option<seq<StoredAttempt>>)
    requires r.Valid() && r.Rest().Some?
    modifies r
    ensures r.Valid()
    ensures x.Some? <==> ReadAttempts(old(r.Rest()).value, n, limits).Good?
    ensures x.Some? ==> x.value == ReadAttempts(old(r.Rest()).value, n, limits).value &&
                        r.Rest() == Some(ReadAttempts(old(r.Rest()).value, n, limits).rest)
  {
    hide GetAttempt, ReadAttempts;
    ghost var whole := ReadAttempts(r.Rest().value, n, limits);
    NothingThen(whole);
    var attempts: seq<StoredAttempt> := [];
    var i := 0;
    while i < n
      invariant 0 <= i <= n && r.Valid() && r.Rest().Some?
      invariant Then(attempts, ReadAttempts(r.Rest().value, n - i, limits)) == whole
    {
      AttemptsStep(r.Rest().value, n - i, limits);
      var attempt := ReadAttempt(r, limits);
      if attempt.None? {
        return None;
      }
      if !AttemptAccepted(attempt.value) {
        return None;
      }
      ThenStep(attempts, attempt.value, ReadAttempts(r.Rest().value, n - i - 1, limits));
      attempts := attempts + [attempt.value];
      i := i + 1;
    }
    AttemptsNone(r.Rest().value, limits);
    ThenNothing(attempts, r.Rest().value);
    return Some(attempts);
  }

  method ReadStoredLineage(r: Reader, env: Env, before: Seen) returns (x: Result<(StoredLineage, Seen)>)
    requires r.Valid() && r.Rest().Some?
    modifies r
    ensures r.Valid()
    ensures
      var read := ReadLineage(env, old(r.Rest()).value, before);
      && (x.Failure? <==> read.Refused?)
      && (x.Failure? ==> x.outcome == read.outcome)
      && (x.Success? ==> x.value == (read.lineage, read.seen) && r.Rest() == Some(read.rest))
  {
    hide GetLineageHead, HeadOutcome, ReadNodes, ReadEdges, ReadAttempts;
    var start := r.cursor;
    var head := ReadLineageHead(r, env.limits);
    if head.None? {
      return Failure(StoreCorrupt);
    }
    var h := head.value;
    var checked := HeadOutcome(h, env.limits);
    if checked != Ok {
      return Failure(checked);
    }
    var nodes := ReadStoredNodes(r, env, h.nodes, h.state.id, before);
    if nodes.None? {
      return Failure(StoreCorrupt);
    }
    var edges := ReadStoredEdges(r, env, h.edges, h.state.id, nodes.value.1);
    if edges.None? {
      return Failure(StoreCorrupt);
    }
    var attempts := ReadStoredAttempts(r, h.attempts, env.limits);
    if attempts.None? {
      return Failure(StoreCorrupt);
    }
    if r.cursor - start > env.limits.maxRecordBytes {
      return Failure(ResourceLimit);
    }
    return Success((StoredLineage(h.state, nodes.value.0, edges.value.0, attempts.value), edges.value.1));
  }

  // ---------------------------------------------------------------------------------------
  // The whole image
  // ---------------------------------------------------------------------------------------

  ghost function Following(done: seq<StoredLineage>, more: Result<(seq<StoredLineage>, seq<Byte>)>)
    : Result<(seq<StoredLineage>, seq<Byte>)>
  {
    if more.Failure? then more else Success((done + more.value.0, more.value.1))
  }

  lemma NothingFollowing(more: Result<(seq<StoredLineage>, seq<Byte>)>)
    ensures Following([], more) == more
  {
    if more.Success? {
      assert [] + more.value.0 == more.value.0;
    }
  }

  lemma LineagesStep(env: Env, s: seq<Byte>, n: nat, seen: Seen, done: seq<StoredLineage>)
    requires n > 0
    ensures
      var first := ReadLineage(env, s, seen);
      var all := Following(done, ReadLineages(env, s, n, seen));
      if first.Refused? then all == Failure(first.outcome)
      else all == Following(done + [first.lineage], ReadLineages(env, first.rest, n - 1, first.seen))
  {
    hide ReadLineage;
    var first := ReadLineage(env, s, seen);
    if first.Read? {
      var more := ReadLineages(env, first.rest, n - 1, first.seen);
      if more.Success? {
        assert done + ([first.lineage] + more.value.0) == done + [first.lineage] + more.value.0;
      }
    }
  }

  lemma LineagesDone(env: Env, s: seq<Byte>, seen: Seen, done: seq<StoredLineage>)
    ensures Following(done, ReadLineages(env, s, 0, seen)) == Success((done, s))
  {
    assert done + [] == done;
  }

  method ReadStoredLineages(r: Reader, env: Env, n: nat) returns (x: Result<seq<StoredLineage>>)
    requires r.Valid() && r.Rest().Some?
    modifies r
    ensures r.Valid()
    ensures
      var read := ReadLineages(env, old(r.Rest()).value, n, NOTHING_SEEN);
      && (x.Failure? <==> read.Failure?)
      && (x.Failure? ==> x.outcome == read.outcome)
      && (x.Success? ==> x.value == read.value.0 && r.Rest() == Some(read.value.1))
  {
    hide ReadLineage, ReadLineages;
    ghost var whole := ReadLineages(env, r.Rest().value, n, NOTHING_SEEN);
    NothingFollowing(whole);
    var lineages: seq<StoredLineage> := [];
    var seen := NOTHING_SEEN;
    var i := 0;
    while i < n
      invariant 0 <= i <= n && r.Valid() && r.Rest().Some?
      invariant Following(lineages, ReadLineages(env, r.Rest().value, n - i, seen)) == whole
    {
      LineagesStep(env, r.Rest().value, n - i, seen, lineages);
      var next := ReadStoredLineage(r, env, seen);
      if next.Failure? {
        return Failure(next.outcome);
      }
      lineages, seen := lineages + [next.value.0], next.value.1;
      i := i + 1;
    }
    LineagesDone(env, r.Rest().value, seen, lineages);
    return Success(lineages);
  }

  method ReadVersions(r: Reader) returns (x: Option<Versions>)
    requires r.Valid()
    modifies r
    ensures r.Valid()
    ensures x.Some? <==> old(r.Rest()).Some? && GetVersions(old(r.Rest()).value).Good?
    ensures x.Some? ==> x.value == GetVersions(old(r.Rest()).value).value &&
                        r.Rest() == Some(GetVersions(old(r.Rest()).value).rest)
  {
    hide Get;
    var magic := r.Number(8);
    var format := r.Number(4);
    var header := r.Number(4);
    var graph := r.Number(4);
    var digest := r.Number(4);
    var flags := r.Number(4);
    var reserved := r.Number(4);
    return if r.failed then None else Some(Versions(magic, format, header, graph, digest, flags));
  }

  method ReadMarks(r: Reader) returns (x: Option<Watermarks>)
    requires r.Valid()
    modifies r
    ensures r.Valid()
    ensures x.Some? <==> old(r.Rest()).Some? && GetMarks(old(r.Rest()).value).Good?
    ensures x.Some? ==> x.value == GetMarks(old(r.Rest()).value).value &&
                        r.Rest() == Some(GetMarks(old(r.Rest()).value).rest)
  {
    hide Get;
    var store := r.Number(8);
    var epoch := r.Number(8);
    var path := r.Number(8);
    var policy := r.Number(8);
    var evidence := r.Number(8);
    var plan := r.Number(8);
    return if r.failed then None else Some(Watermarks(store, path, policy, evidence, plan, epoch));
  }

  method ReadSizes(r: Reader, marks: Watermarks) returns (x: Option<ImageHead>)
    requires r.Valid()
    modifies r
    ensures r.Valid()
    ensures x.Some? <==> old(r.Rest()).Some? && GetSizes(old(r.Rest()).value, marks).Good?
    ensures x.Some? ==> x.value == GetSizes(old(r.Rest()).value, marks).value &&
                        r.Rest() == Some(GetSizes(old(r.Rest()).value, marks).rest)
  {
    hide Get;
    var lineages := r.Number(4);
    var nodes := r.Number(4);
    var edges := r.Number(4);
    var reserved := r.Number(4);
    var body := r.Number(8);
    var padding := r.Number(24);
    return if r.failed then None else Some(ImageHead(marks, lineages, nodes, edges, body));
  }

  method ReadImageHead(r: Reader) returns (x: Result<ImageHead>)
    requires r.Valid() && r.Rest().Some?
    modifies r
    ensures r.Valid()
    ensures
      var read := GetImageHead(old(r.Rest()).value);
      && (x.Failure? <==> read.HeadRefused?)
      && (x.Failure? ==> x.outcome == read.outcome)
      && (x.Success? ==> x.value == read.head && r.Rest() == Some(read.rest))
  {
    hide GetVersions, GetMarks, GetSizes;
    var versions := ReadVersions(r);
    if versions.None? || versions.value.magic != MAGIC {
      return Failure(StoreCorrupt);
    }
    var v := versions.value;
    var marks := ReadMarks(r);
    if marks.None? {
      return Failure(StoreCorrupt);
    }
    var sizes := ReadSizes(r, marks.value);
    if sizes.None? || v.header != HEADER_SIZE {
      return Failure(StoreCorrupt);
    }
    if v.format != VERSION || v.graph != VERSION || v.digest != VERSION {
      return Failure(UnsupportedVersion);
    }
    if v.flags != 0 {
      return Failure(StoreCorrupt);
    }
    return Success(sizes.value);
  }

  /** The independent structural check: every record and edge re-added to an empty graph. */
  method CheckStructure(l: StoredLineage, limits: Limits) returns (ok: bool)
    requires limits.maxNodes <= limits.maxVisited
    ensures ok <==> StructureAccepted(l, limits)
  {
    hide Rebuilt, GraphClass.ProvenanceGraph.Valid;
    var lin := new LineageObject(l.state.id, l.state.key);
    ok := lin.Rebuild(l, limits);
  }

  method CheckStructures(lineages: seq<StoredLineage>, limits: Limits) returns (ok: bool)
    requires limits.maxNodes <= limits.maxVisited
    ensures ok <==> StructuresAccepted(lineages, limits)
  {
    hide StructureAccepted;
    var i := 0;
    while i < |lineages|
      invariant 0 <= i <= |lineages|
      invariant forall j :: 0 <= j < i ==> StructureAccepted(lineages[j], limits)
    {
      var accepted := CheckStructure(lineages[i], limits);
      if !accepted {
        return false;
      }
      i := i + 1;
    }
    return true;
  }

  /** The integrity trailer: the digest of everything before it. */
  method CheckTrailer(hash: seq<Byte> -> nat, bytes: seq<Byte>) returns (ok: bool)
    requires |bytes| >= TRAILER_SIZE
    ensures ok <==> Get(bytes[|bytes| - TRAILER_SIZE..], TRAILER_SIZE) ==
                    Good(hash(bytes[..|bytes| - TRAILER_SIZE]), [])
  {
    hide Get, Fits;
    var cut := |bytes| - TRAILER_SIZE;
    var trailer := new Reader(bytes[cut..]);
    var stored := trailer.Number(TRAILER_SIZE);
    GetSize(bytes[cut..], TRAILER_SIZE);
    ok := stored == hash(bytes[..cut]);
  }

  method OpenStoreImage(hash: seq<Byte> -> nat, bytes: seq<Byte>, limits: Limits) returns (r: HeadRead)
    ensures r == OpenImage(hash, bytes, limits)
  {
    hide GetImageHead, Get;
    if |bytes| < HEADER_SIZE + TRAILER_SIZE {
      return HeadRefused(StoreCorrupt);
    }
    if |bytes| > limits.maxStoreBytes {
      return HeadRefused(ResourceLimit);
    }
    var header := new Reader(bytes);
    var head := ReadImageHead(header);
    if head.Failure? {
      return HeadRefused(head.outcome);
    }
    var h := head.value;
    if HEADER_SIZE + h.body + TRAILER_SIZE != |bytes| || |bytes| - header.cursor < h.body {
      return HeadRefused(StoreCorrupt);
    }
    var intact := CheckTrailer(hash, bytes);
    if !intact {
      return HeadRefused(StoreCorrupt);
    }
    if h.lineages > limits.maxLineages || h.nodes > limits.maxImageNodes || h.edges > limits.maxImageEdges {
      return HeadRefused(StoreCorrupt);
    }
    return HeadRead(h, bytes[header.cursor..][..h.body]);
  }

  method DecodeStoreBody(env: Env, h: ImageHead, body: seq<Byte>) returns (r: Result<StoreImage>)
    requires env.limits.maxNodes <= env.limits.maxVisited
    ensures r == DecodeBody(env, h, body)
  {
    hide ReadLineages, StructuresAccepted, NodeCount, EdgeCount;
    var reader := new Reader(body);
    var lineages := ReadStoredLineages(reader, env, h.lineages);
    if lineages.Failure? {
      return Failure(lineages.outcome);
    }
    if reader.cursor != |body| {
      return Failure(StoreCorrupt);
    }
    var nodes, edges := CountRecords(lineages.value);
    if nodes != h.nodes || edges != h.edges {
      return Failure(StoreCorrupt);
    }
    var sound := CheckStructures(lineages.value, env.limits);
    if !sound {
      return Failure(StoreCorrupt);
    }
    return Success(StoreImage(h.marks, lineages.value));
  }

  method DecodeStoreImage(env: Env, hash: seq<Byte> -> nat, bytes: seq<Byte>) returns (r: Result<StoreImage>)
    requires env.limits.maxNodes <= env.limits.maxVisited
    ensures r == DecodeImage(env, hash, bytes)
  {
    hide OpenImage, DecodeBody;
    var admitted := OpenStoreImage(hash, bytes, env.limits);
    match admitted
    case HeadRefused(outcome) =>
      return Failure(outcome);
    case HeadRead(h, body) =>
      r := DecodeStoreBody(env, h, body);
  }
}
