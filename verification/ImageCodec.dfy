// The store image (src/persistence.cpp:87): a fixed header, the lineage records, an integrity
// trailer. Decoding checks everything the encoder guarantees, independently.
module ImageCodec {
  import opened Types
  import opened Ordering
  import opened Digraph
  import opened GraphModel
  import opened StoreTypes
  import opened Bytes
  import opened EvidenceVectors
  import opened Images
  import opened Codec

  const HEADER_SIZE: nat := 128
  const TRAILER_SIZE: nat := 32
  const VERSION: nat := 1

  /** "RPSTORE1", read as eight little-endian bytes. */
  const MAGIC: nat := 0x3145524F54535052

  // ---------------------------------------------------------------------------------------
  // The lineage record
  // ---------------------------------------------------------------------------------------

  /** The part of a lineage state that is written; the counters and the last digest are not. */
  function StoredState(st: LineageState): LineageState {
    st.(nodeCount := 0, edgeCount := 0, compactedCount := 0, historyCount := 0, lastDigest := 0)
  }

  datatype LineageHead = LineageHead(state: LineageState, nodes: nat, edges: nat, attempts: nat)

  predicate RepState(st: LineageState, limits: Limits) {
    && Fits(st.id, 8) && Fits(st.key.route, 8) && ByteText(st.key.name) && |st.key.name| <= limits.maxKeyBytes
    && Fits(|st.key.name|, 4) && Fits(st.generation, 8) && Fits(st.currentNode, 8) && Fits(st.lineageGeneration, 8)
    && Fits(st.authorityGeneration, 8) && Fits(st.lastBoot, 8)
  }

  function PutCounts(h: LineageHead, rest: seq<Byte>): seq<Byte> {
    Put(h.nodes, 4, Put(h.edges, 4, Put(h.attempts, 4, Put(0, 4, rest))))
  }

  function PutPosition(st: LineageState, rest: seq<Byte>): seq<Byte> {
    Put(st.generation, 8, Put(st.currentNode, 8, Put(st.lineageGeneration, 8, Put(st.authorityGeneration, 8,
      Put(st.lastBoot, 8, rest)))))
  }

  function PutLineageHead(h: LineageHead, rest: seq<Byte>): seq<Byte> {
    Put(h.state.id, 8, Put(h.state.key.route, 8, PutText(h.state.key.name,
      PutEnum(LINEAGE_LIFECYCLES, h.state.lifecycle, Put(0, 2, PutPosition(h.state, PutCounts(h, rest)))))))
  }

  function GetLineageHead(s: seq<Byte>, limits: Limits): Parsed<LineageHead> {
    var (id, s1) :- Get(s, 8);
    var (route, s2) :- Get(s1, 8);
    var (name, s3) :- GetText(s2, limits.maxKeyBytes);
    var (lifecycle, s4) :- GetEnum(LINEAGE_LIFECYCLES, s3);
    var (_, s5) :- Get(s4, 2);
    var (generation, s6) :- Get(s5, 8);
    var (currentNode, s7) :- Get(s6, 8);
    var (lineageGeneration, s8) :- Get(s7, 8);
    var (authorityGeneration, s9) :- Get(s8, 8);
    var (lastBoot, s10) :- Get(s9, 8);
    var (nodes, s11) :- Get(s10, 4);
    var (edges, s12) :- Get(s11, 4);
    var (attempts, s13) :- Get(s12, 4);
    var (_, s14) :- Get(s13, 4);
    Good(LineageHead(
           LineageState(id, LineageKey(route, name), lifecycle, generation, currentNode, lineageGeneration,
                        authorityGeneration, 0, 0, 0, 0, lastBoot, 0),
           nodes, edges, attempts), s14)
  }

  lemma {:induction false} FitsZero(n: nat)
    ensures Fits(0, n)
  {
    if n > 0 {
      FitsZero(n - 1);
    }
  }

  lemma LineageHeadRoundTrip(h: LineageHead, limits: Limits, rest: seq<Byte>)
    requires RepState(h.state, limits) && Fits(h.nodes, 4) && Fits(h.edges, 4) && Fits(h.attempts, 4)
    ensures GetLineageHead(PutLineageHead(h, rest), limits) == Good(h.(state := StoredState(h.state)), rest)
  {
    hide Put, Get, Fits, PutEnum, GetEnum, PutText, GetText;
    var t13 := Put(0, 4, rest);
    var t12 := Put(h.attempts, 4, t13);
    var t11 := Put(h.edges, 4, t12);
    var t10 := Put(h.nodes, 4, t11);
    var t9 := Put(h.state.lastBoot, 8, t10);
    var t8 := Put(h.state.authorityGeneration, 8, t9);
    var t7 := Put(h.state.lineageGeneration, 8, t8);
    var t6 := Put(h.state.currentNode, 8, t7);
    var t5 := Put(h.state.generation, 8, t6);
    var t4 := Put(0, 2, t5);
    var t3 := PutEnum(LINEAGE_LIFECYCLES, h.state.lifecycle, t4);
    var t2 := PutText(h.state.key.name, t3);
    var t1 := Put(h.state.key.route, 8, t2);
    KnownLineageLifecycle(h.state.lifecycle);
    FitsZero(2);
    FitsZero(4);
    PutGet(h.state.id, 8, t1);
    PutGet(h.state.key.route, 8, t2);
    TextRoundTrip(h.state.key.name, limits.maxKeyBytes, t3);
    EnumRoundTrip(LINEAGE_LIFECYCLES, h.state.lifecycle, t4);
    PutGet(0, 2, t5);
    PutGet(h.state.generation, 8, t6);
    PutGet(h.state.currentNode, 8, t7);
    PutGet(h.state.lineageGeneration, 8, t8);
    PutGet(h.state.authorityGeneration, 8, t9);
    PutGet(h.state.lastBoot, 8, t10);
    PutGet(h.nodes, 4, t11);
    PutGet(h.edges, 4, t12);
    PutGet(h.attempts, 4, t13);
    PutGet(0, 4, rest);
  }

  function PutNodes(nodes: seq<Node>, rest: seq<Byte>): seq<Byte> {
    if nodes == [] then rest else PutNode(nodes[0], PutNodes(nodes[1..], rest))
  }

  function PutEdges(edges: seq<Edge>, rest: seq<Byte>): seq<Byte> {
    if edges == [] then rest else PutEdge(edges[0], PutEdges(edges[1..], rest))
  }

  function PutAttempts(attempts: seq<StoredAttempt>, rest: seq<Byte>): seq<Byte> {
    if attempts == [] then rest else PutAttempt(attempts[0], PutAttempts(attempts[1..], rest))
  }

  function HeadOfLineage(l: StoredLineage): LineageHead {
    LineageHead(l.state, |l.nodes|, |l.edges|, |l.attempts|)
  }

  function PutLineage(l: StoredLineage, rest: seq<Byte>): seq<Byte> {
    PutLineageHead(HeadOfLineage(l), PutNodes(l.nodes, PutEdges(l.edges, PutAttempts(l.attempts, rest))))
  }

  function PutLineages(lineages: seq<StoredLineage>, rest: seq<Byte>): seq<Byte> {
    if lineages == [] then rest else PutLineage(lineages[0], PutLineages(lineages[1..], rest))
  }

  // ---------------------------------------------------------------------------------------
  // What decoding checks of one record
  // ---------------------------------------------------------------------------------------

  /** Identities met so far, across all lineages. */
  datatype Seen = Seen(nodes: set<nat>, edges: set<nat>, derivations: set<nat>)

  predicate NodeAccepted(env: Env, lid: nat, seen: Seen, n: Node) {
    && n.core.lineage == lid && n.id != 0 && n.id !in seen.nodes && ValidateNode(n) == Ok
    && (n.core.kind != CompactedSummary ==> n.id == env.NodeId(n.core))
  }

  predicate EdgeAccepted(env: Env, lid: nat, seen: Seen, e: Edge) {
    && e.lineage == lid && e.id !in seen.edges && e.derivation !in seen.derivations && ValidateEdge(e) == Ok
    && e.derivation == env.DerivationId(e) && e.id == env.EdgeId(e)
  }

  predicate AttemptAccepted(a: StoredAttempt) {
    a.publisher != 0 && a.attempt != 0 && a.record.node != 0
  }

  function SeeNode(seen: Seen, n: Node): Seen {
    seen.(nodes := seen.nodes + {n.id})
  }

  function SeeEdge(seen: Seen, e: Edge): Seen {
    seen.(edges := seen.edges + {e.id}, derivations := seen.derivations + {e.derivation})
  }

  function ReadNodes(env: Env, s: seq<Byte>, n: nat, lid: nat, seen: Seen): Parsed<(seq<Node>, Seen)>
    decreases n
  {
    if n == 0 then Good(([], seen), s)
    else
      var (node, s1) :- GetNode(s, env.limits);
      if !NodeAccepted(env, lid, seen, node) then Bad
      else
        var (more, s2) :- ReadNodes(env, s1, n - 1, lid, SeeNode(seen, node));
        Good(([node] + more.0, more.1), s2)
  }

  function ReadEdges(env: Env, s: seq<Byte>, n: nat, lid: nat, seen: Seen): Parsed<(seq<Edge>, Seen)>
    decreases n
  {
    if n == 0 then Good(([], seen), s)
    else
      var (edge, s1) :- GetEdge(s, env.limits);
      if !EdgeAccepted(env, lid, seen, edge) then Bad
      else
        var (more, s2) :- ReadEdges(env, s1, n - 1, lid, SeeEdge(seen, edge));
        Good(([edge] + more.0, more.1), s2)
  }

  function ReadAttempts(s: seq<Byte>, n: nat, limits: Limits): Parsed<seq<StoredAttempt>>
    decreases n
  {
    if n == 0 then Good([], s)
    else
      var (attempt, s1) :- GetAttempt(s, limits);
      if !AttemptAccepted(attempt) then Bad
      else
        var (more, s2) :- ReadAttempts(s1, n - 1, limits);
        Good([attempt] + more, s2)
  }

  function HeadOutcome(h: LineageHead, limits: Limits): Outcome {
    if h.state.id == 0 || h.state.key.route == 0 || h.state.key.name == "" then StoreCorrupt
    else if h.nodes > limits.maxNodes || h.edges > limits.maxEdges || h.attempts > limits.maxAttempts then ResourceLimit
    else if h.nodes > 0 && h.state.lineageGeneration == 0 then StoreCorrupt
    else if h.nodes == 0 && (h.state.currentNode != 0 || h.state.generation != 0) then StoreCorrupt
    else Ok
  }

  datatype LineageRead = Refused(outcome: Outcome) | Read(lineage: StoredLineage, seen: Seen, rest: seq<Byte>)

  function ReadLineage(env: Env, s: seq<Byte>, seen: Seen): LineageRead {
    match GetLineageHead(s, env.limits)
    case Bad => Refused(StoreCorrupt)
    case Good(h, s1) =>
      if HeadOutcome(h, env.limits) != Ok then Refused(HeadOutcome(h, env.limits))
      else
        match ReadNodes(env, s1, h.nodes, h.state.id, seen)
        case Bad => Refused(StoreCorrupt)
        case Good(nodes, s2) =>
          match ReadEdges(env, s2, h.edges, h.state.id, nodes.1)
          case Bad => Refused(StoreCorrupt)
          case Good(edges, s3) =>
            match ReadAttempts(s3, h.attempts, env.limits)
            case Bad => Refused(StoreCorrupt)
            case Good(attempts, s4) =>
              if |s| - |s4| > env.limits.maxRecordBytes then Refused(ResourceLimit)
              else Read(StoredLineage(h.state, nodes.0, edges.0, attempts), edges.1, s4)
  }

  // ---------------------------------------------------------------------------------------
  // Round trips of the lists
  // ---------------------------------------------------------------------------------------

  function StoredNodes(nodes: seq<Node>): seq<Node> {
    if nodes == [] then [] else [StoredNode(nodes[0])] + StoredNodes(nodes[1..])
  }

  function StoredEdges(edges: seq<Edge>): seq<Edge> {
    if edges == [] then [] else [StoredEdge(edges[0])] + StoredEdges(edges[1..])
  }

  /** The identities met after these records, if every one is acceptable where it stands. */
  function AcceptNodes(env: Env, lid: nat, seen: Seen, nodes: seq<Node>): Option<Seen>
    decreases |nodes|
  {
    if nodes == [] then Some(seen)
    else if !NodeAccepted(env, lid, seen, StoredNode(nodes[0])) then None
    else AcceptNodes(env, lid, SeeNode(seen, nodes[0]), nodes[1..])
  }

  function AcceptEdges(env: Env, lid: nat, seen: Seen, edges: seq<Edge>): Option<Seen>
    decreases |edges|
  {
    if edges == [] then Some(seen)
    else if !EdgeAccepted(env, lid, seen, StoredEdge(edges[0])) then None
    else AcceptEdges(env, lid, SeeEdge(seen, edges[0]), edges[1..])
  }

  lemma {:induction false} NodesRoundTrip(env: Env, nodes: seq<Node>, lid: nat, seen: Seen, after: Seen,
                                          rest: seq<Byte>)
    requires (forall n :: n in nodes ==> RepNode(n, env.limits)) && AcceptNodes(env, lid, seen, nodes) == Some(after)
    ensures ReadNodes(env, PutNodes(nodes, rest), |nodes|, lid, seen) == Good((StoredNodes(nodes), after), rest)
    decreases |nodes|
  {
    hide PutNode, GetNode, RepNode, NodeAccepted;
    if nodes != [] {
      NodeRoundTrip(nodes[0], env.limits, PutNodes(nodes[1..], rest));
      NodesRoundTrip(env, nodes[1..], lid, SeeNode(seen, nodes[0]), after, rest);
    }
  }

  lemma {:induction false} EdgesRoundTrip(env: Env, edges: seq<Edge>, lid: nat, seen: Seen, after: Seen,
                                          rest: seq<Byte>)
    requires (forall e :: e in edges ==> RepEdge(e, env.limits)) && AcceptEdges(env, lid, seen, edges) == Some(after)
    ensures ReadEdges(env, PutEdges(edges, rest), |edges|, lid, seen) == Good((StoredEdges(edges), after), rest)
    decreases |edges|
  {
    hide PutEdge, GetEdge, RepEdge, EdgeAccepted;
    if edges != [] {
      EdgeRoundTrip(edges[0], env.limits, PutEdges(edges[1..], rest));
      EdgesRoundTrip(env, edges[1..], lid, SeeEdge(seen, edges[0]), after, rest);
    }
  }

  predicate AllReadable(attempts: seq<StoredAttempt>, limits: Limits) {
    forall a :: a in attempts ==> EntryReadable(a, limits)
  }

  lemma {:induction false} AttemptsRoundTrip(attempts: seq<StoredAttempt>, limits: Limits, rest: seq<Byte>)
    requires forall a :: a in attempts ==> RepAttempt(a) && AttemptAccepted(a)
    ensures ReadAttempts(PutAttempts(attempts, rest), |attempts|, limits) ==
            if AllReadable(attempts, limits) then Good(attempts, rest) else Bad
    decreases |attempts|
  {
    hide PutAttempt, GetAttempt, RepAttempt, EntryReadable;
    if attempts != [] {
      AttemptRoundTrip(attempts[0], limits, PutAttempts(attempts[1..], rest));
      AttemptsRoundTrip(attempts[1..], limits, rest);
      assert attempts == [attempts[0]] + attempts[1..];
    }
  }

  /** Every value of the lineage record fits its field. */
  predicate RepLineage(l: StoredLineage, limits: Limits) {
    && RepState(l.state, limits) && Fits(|l.nodes|, 4) && Fits(|l.edges|, 4) && Fits(|l.attempts|, 4)
    && (forall n :: n in l.nodes ==> RepNode(n, limits))
    && (forall e :: e in l.edges ==> RepEdge(e, limits))
    && (forall a :: a in l.attempts ==> RepAttempt(a))
  }

  /** The identities met after the lineage, if it passes every check of one record. */
  function AcceptLineage(env: Env, seen: Seen, l: StoredLineage): Option<Seen> {
    if HeadOutcome(HeadOfLineage(l), env.limits) != Ok then None
    else
      match AcceptNodes(env, l.state.id, seen, l.nodes)
      case None => None
      case Some(nodes) =>
        if exists a :: a in l.attempts && !AttemptAccepted(a) then None
        else AcceptEdges(env, l.state.id, nodes, l.edges)
  }

  function StoredForm(l: StoredLineage): StoredLineage {
    StoredLineage(StoredState(l.state), StoredNodes(l.nodes), StoredEdges(l.edges), l.attempts)
  }

  lemma SameHeadOutcome(h: LineageHead, limits: Limits)
    ensures HeadOutcome(h.(state := StoredState(h.state)), limits) == HeadOutcome(h, limits)
  {
  }

  lemma LineageRoundTrip(env: Env, l: StoredLineage, seen: Seen, after: Seen, rest: seq<Byte>)
    requires RepLineage(l, env.limits) && AcceptLineage(env, seen, l) == Some(after)
    requires |PutLineage(l, rest)| - |rest| <= env.limits.maxRecordBytes
    ensures ReadLineage(env, PutLineage(l, rest), seen) ==
            if AllReadable(l.attempts, env.limits) then Read(StoredForm(l), after, rest)
            else Refused(StoreCorrupt)
  {
    hide AllReadable, PutLineageHead, GetLineageHead, PutNodes, PutEdges, PutAttempts, ReadNodes, ReadEdges,
      ReadAttempts, AcceptNodes, AcceptEdges, RepState, RepNode, RepEdge, RepAttempt, HeadOutcome, AttemptAccepted,
      StoredNodes, StoredEdges, Fits;
    var t3 := PutAttempts(l.attempts, rest);
    var t2 := PutEdges(l.edges, t3);
    var t1 := PutNodes(l.nodes, t2);
    LineageHeadRoundTrip(HeadOfLineage(l), env.limits, t1);
    SameHeadOutcome(HeadOfLineage(l), env.limits);
    var nodes := AcceptNodes(env, l.state.id, seen, l.nodes);
    NodesRoundTrip(env, l.nodes, l.state.id, seen, nodes.value, t2);
    EdgesRoundTrip(env, l.edges, l.state.id, nodes.value, after, t3);
    AttemptsRoundTrip(l.attempts, env.limits, rest);
  }

  // ---------------------------------------------------------------------------------------
  // The image
  // ---------------------------------------------------------------------------------------

  datatype ImageHead = ImageHead(marks: Watermarks, lineages: nat, nodes: nat, edges: nat, body: nat)

  predicate RepMarks(m: Watermarks) {
    Fits(m.store, 8) && Fits(m.epoch, 8) && Fits(m.path, 8) && Fits(m.policy, 8) && Fits(m.evidence, 8) &&
      Fits(m.plan, 8)
  }

  function PutVersions(rest: seq<Byte>): seq<Byte> {
    Put(MAGIC, 8, Put(VERSION, 4, Put(HEADER_SIZE, 4, Put(VERSION, 4, Put(VERSION, 4, Put(0, 4, Put(0, 4, rest)))))))
  }

  function PutMarks(m: Watermarks, rest: seq<Byte>): seq<Byte> {
    Put(m.store, 8, Put(m.epoch, 8, Put(m.path, 8, Put(m.policy, 8, Put(m.evidence, 8, Put(m.plan, 8, rest))))))
  }

  /** The counts and the body size, then zeros up to the header size. */
  function PutSizes(h: ImageHead, rest: seq<Byte>): seq<Byte> {
    Put(h.lineages, 4, Put(h.nodes, 4, Put(h.edges, 4, Put(0, 4, Put(h.body, 8, Put(0, 24, rest))))))
  }

  function PutImageHead(h: ImageHead, rest: seq<Byte>): seq<Byte> {
    PutVersions(PutMarks(h.marks, PutSizes(h, rest)))
  }

  function NodeCount(lineages: seq<StoredLineage>): nat {
    if lineages == [] then 0 else |lineages[0].nodes| + NodeCount(lineages[1..])
  }

  function EdgeCount(lineages: seq<StoredLineage>): nat {
    if lineages == [] then 0 else |lineages[0].edges| + EdgeCount(lineages[1..])
  }

  /** Every lineage record is within the record bound. */
  predicate RecordsFit(lineages: seq<StoredLineage>, limits: Limits) {
    hide *;
    lineages == [] ||
    (|PutLineages(lineages, [])| - |PutLineages(lineages[1..], [])| <= limits.maxRecordBytes &&
     RecordsFit(lineages[1..], limits))
  }

  function HeadOfImage(image: StoreImage): ImageHead {
    hide *;
    ImageHead(image.marks, |image.lineages|, NodeCount(image.lineages), EdgeCount(image.lineages),
              |PutLineages(image.lineages, [])|)
  }

  /** Header and body: what the integrity trailer covers. */
  function Sealed(image: StoreImage): seq<Byte> {
    PutImageHead(HeadOfImage(image), PutLineages(image.lineages, []))
  }

  /** A hash function whose results are digests. */
  ghost predicate IsHash(hash: seq<Byte> -> nat) {
    forall s :: Fits(hash(s), TRAILER_SIZE)
  }

  function EncodeImage(hash: seq<Byte> -> nat, image: StoreImage, limits: Limits): Result<seq<Byte>> {
    if |image.lineages| > limits.maxLineages || NodeCount(image.lineages) > limits.maxImageNodes ||
       EdgeCount(image.lineages) > limits.maxImageEdges
    then Failure(ResourceLimit)
    else if !RecordsFit(image.lineages, limits) then Failure(ResourceLimit)
    else if |PutLineages(image.lineages, [])| > limits.maxStoreBytes then Failure(ResourceLimit)
    else
      var bytes := Sealed(image) + Put(hash(Sealed(image)), TRAILER_SIZE, []);
      if |bytes| > limits.maxStoreBytes then Failure(ResourceLimit) else Success(bytes)
  }

  datatype HeadRead = HeadRefused(outcome: Outcome) | HeadRead(head: ImageHead, rest: seq<Byte>)

  function GetSizes(s: seq<Byte>, marks: Watermarks): Parsed<ImageHead> {
    var (lineages, s1) :- Get(s, 4);
    var (nodes, s2) :- Get(s1, 4);
    var (edges, s3) :- Get(s2, 4);
    var (_, s4) :- Get(s3, 4);
    var (body, s5) :- Get(s4, 8);
    var (_, s6) :- Get(s5, 24);
    Good(ImageHead(marks, lineages, nodes, edges, body), s6)
  }

  function GetMarks(s: seq<Byte>): Parsed<Watermarks> {
    var (store, s1) :- Get(s, 8);
    var (epoch, s2) :- Get(s1, 8);
    var (path, s3) :- Get(s2, 8);
    var (policy, s4) :- Get(s3, 8);
    var (evidence, s5) :- Get(s4, 8);
    var (plan, s6) :- Get(s5, 8);
    Good(Watermarks(store, path, policy, evidence, plan, epoch), s6)
  }

  datatype Versions = Versions(magic: nat, format: nat, header: nat, graph: nat, digest: nat, flags: nat)

  function GetVersions(s: seq<Byte>): Parsed<Versions> {
    var (magic, s1) :- Get(s, 8);
    var (format, s2) :- Get(s1, 4);
    var (header, s3) :- Get(s2, 4);
    var (graph, s4) :- Get(s3, 4);
    var (digest, s5) :- Get(s4, 4);
    var (flags, s6) :- Get(s5, 4);
    var (_, s7) :- Get(s6, 4);
    Good(Versions(magic, format, header, graph, digest, flags), s7)
  }

  function GetImageHead(s: seq<Byte>): HeadRead {
    var versions := GetVersions(s);
    if versions.Bad? || versions.value.magic != MAGIC then HeadRefused(StoreCorrupt)
    else
      var marks := GetMarks(versions.rest);
      if marks.Bad? then HeadRefused(StoreCorrupt)
      else
        var sizes := GetSizes(marks.rest, marks.value);
        var v := versions.value;
        if sizes.Bad? || v.header != HEADER_SIZE then HeadRefused(StoreCorrupt)
        else if v.format != VERSION || v.graph != VERSION || v.digest != VERSION then HeadRefused(UnsupportedVersion)
        else if v.flags != 0 then HeadRefused(StoreCorrupt)
        else HeadRead(sizes.value, sizes.rest)
  }

  function ReadLineages(env: Env, s: seq<Byte>, n: nat, seen: Seen): Result<(seq<StoredLineage>, seq<Byte>)>
    decreases n
  {
    hide *;
    if n == 0 then Success(([], s))
    else
      match ReadLineage(env, s, seen)
      case Refused(outcome) => Failure(outcome)
      case Read(lineage, after, rest) =>
        match ReadLineages(env, rest, n - 1, after)
        case Failure(outcome) => Failure(outcome)
        case Success(more) => Success(([lineage] + more.0, more.1))
  }

  /** The independent structural check of one decoded lineage. */
  ghost predicate StructureAccepted(l: StoredLineage, limits: Limits) {
    Rebuilt(l, limits).Success?
  }

  ghost predicate StructuresAccepted(lineages: seq<StoredLineage>, limits: Limits) {
    forall l :: l in lineages ==> StructureAccepted(l, limits)
  }

  const NOTHING_SEEN: Seen := Seen({}, {}, {})

  /** What the header, the sizes and the integrity trailer admit: the header and the body. */
  function OpenImage(hash: seq<Byte> -> nat, bytes: seq<Byte>, limits: Limits): HeadRead {
    if |bytes| < HEADER_SIZE + TRAILER_SIZE then HeadRefused(StoreCorrupt)
    else if |bytes| > limits.maxStoreBytes then HeadRefused(ResourceLimit)
    else
      match GetImageHead(bytes)
      case HeadRefused(outcome) => HeadRefused(outcome)
      case HeadRead(h, rest) =>
        var cut := |bytes| - TRAILER_SIZE;
        if HEADER_SIZE + h.body != cut || |rest| < h.body then HeadRefused(StoreCorrupt)
        else if Get(bytes[cut..], TRAILER_SIZE) != Good(hash(bytes[..cut]), []) then HeadRefused(StoreCorrupt)
        else if h.lineages > limits.maxLineages || h.nodes > limits.maxImageNodes || h.edges > limits.maxImageEdges
        then HeadRefused(StoreCorrupt)
        else HeadRead(h, rest[..h.body])
  }

  /** The lineages of the body, if they fill it, are as many as the header says, and pass the
      structural check. */
  ghost function DecodeBody(env: Env, h: ImageHead, body: seq<Byte>): Result<StoreImage> {
    match ReadLineages(env, body, h.lineages, NOTHING_SEEN)
    case Failure(outcome) => Failure(outcome)
    case Success(read) =>
      if read.1 != [] || NodeCount(read.0) != h.nodes || EdgeCount(read.0) != h.edges then Failure(StoreCorrupt)
      else if !StructuresAccepted(read.0, env.limits) then Failure(StoreCorrupt)
      else Success(StoreImage(h.marks, read.0))
  }

  ghost function DecodeImage(env: Env, hash: seq<Byte> -> nat, bytes: seq<Byte>): Result<StoreImage> {
    match OpenImage(hash, bytes, env.limits)
    case HeadRefused(outcome) => Failure(outcome)
    case HeadRead(h, body) => DecodeBody(env, h, body)
  }

  // ---------------------------------------------------------------------------------------
  // Round trip
  // ---------------------------------------------------------------------------------------

  lemma VersionsRoundTrip(rest: seq<Byte>)
    ensures GetVersions(PutVersions(rest)) == Good(Versions(MAGIC, VERSION, HEADER_SIZE, VERSION, VERSION, 0), rest)
  {
    hide Put, Get, Fits;
    var t6 := Put(0, 4, rest);
    var t5 := Put(0, 4, t6);
    var t4 := Put(VERSION, 4, t5);
    var t3 := Put(VERSION, 4, t4);
    var t2 := Put(HEADER_SIZE, 4, t3);
    var t1 := Put(VERSION, 4, t2);
    SmallConstantsFit();
    PutGet(MAGIC, 8, t1);
    PutGet(VERSION, 4, t2);
    PutGet(HEADER_SIZE, 4, t3);
    PutGet(VERSION, 4, t4);
    PutGet(VERSION, 4, t5);
    PutGet(0, 4, t6);
    PutGet(0, 4, rest);
  }

  lemma SmallConstantsFit()
    ensures Fits(MAGIC, 8) && Fits(VERSION, 4) && Fits(HEADER_SIZE, 4) && Fits(0, 4)
  {
    assert Pow256(1) == 256 && Pow256(2) == 256 * Pow256(1) && Pow256(3) == 256 * Pow256(2) &&
           Pow256(4) == 256 * Pow256(3);
    assert Pow256(5) == 256 * Pow256(4) && Pow256(6) == 256 * Pow256(5) && Pow256(7) == 256 * Pow256(6) &&
           Pow256(8) == 256 * Pow256(7);
  }

  lemma MarksRoundTrip(m: Watermarks, rest: seq<Byte>)
    requires RepMarks(m)
    ensures GetMarks(PutMarks(m, rest)) == Good(m, rest)
  {
    hide Put, Get, Fits;
    var t5 := Put(m.plan, 8, rest);
    var t4 := Put(m.evidence, 8, t5);
    var t3 := Put(m.policy, 8, t4);
    var t2 := Put(m.path, 8, t3);
    var t1 := Put(m.epoch, 8, t2);
    PutGet(m.store, 8, t1);
    PutGet(m.epoch, 8, t2);
    PutGet(m.path, 8, t3);
    PutGet(m.policy, 8, t4);
    PutGet(m.evidence, 8, t5);
    PutGet(m.plan, 8, rest);
  }

  predicate RepHead(h: ImageHead) {
    RepMarks(h.marks) && Fits(h.lineages, 4) && Fits(h.nodes, 4) && Fits(h.edges, 4) && Fits(h.body, 8)
  }

  lemma SizesRoundTrip(h: ImageHead, rest: seq<Byte>)
    requires RepHead(h)
    ensures GetSizes(PutSizes(h, rest), h.marks) == Good(h, rest)
  {
    hide Put, Get, Fits, RepMarks;
    var t5 := Put(0, 24, rest);
    var t4 := Put(h.body, 8, t5);
    var t3 := Put(0, 4, t4);
    var t2 := Put(h.edges, 4, t3);
    var t1 := Put(h.nodes, 4, t2);
    FitsZero(4);
    FitsZero(24);
    PutGet(h.lineages, 4, t1);
    PutGet(h.nodes, 4, t2);
    PutGet(h.edges, 4, t3);
    PutGet(0, 4, t4);
    PutGet(h.body, 8, t5);
    PutGet(0, 24, rest);
  }

  lemma ImageHeadRoundTrip(h: ImageHead, rest: seq<Byte>)
    requires RepHead(h)
    ensures GetImageHead(PutImageHead(h, rest)) == HeadRead(h, rest)
  {
    hide GetVersions, PutVersions, GetMarks, PutMarks, GetSizes, PutSizes, Fits;
    VersionsRoundTrip(PutMarks(h.marks, PutSizes(h, rest)));
    MarksRoundTrip(h.marks, PutSizes(h, rest));
    SizesRoundTrip(h, rest);
  }

  lemma VersionsThen(a: seq<Byte>, b: seq<Byte>)
    ensures PutVersions(a) + b == PutVersions(a + b)
    ensures |PutVersions(a)| == 32 + |a|
  {
    hide Put;
    var t6 := Put(0, 4, a);
    var t5 := Put(0, 4, t6);
    var t4 := Put(VERSION, 4, t5);
    var t3 := Put(VERSION, 4, t4);
    var t2 := Put(HEADER_SIZE, 4, t3);
    var t1 := Put(VERSION, 4, t2);
    PutThen(0, 4, a, b);
    PutThen(0, 4, t6, b);
    PutThen(VERSION, 4, t5, b);
    PutThen(VERSION, 4, t4, b);
    PutThen(HEADER_SIZE, 4, t3, b);
    PutThen(VERSION, 4, t2, b);
    PutThen(MAGIC, 8, t1, b);
    PutSize(0, 4, a);
    PutSize(0, 4, t6);
    PutSize(VERSION, 4, t5);
    PutSize(VERSION, 4, t4);
    PutSize(HEADER_SIZE, 4, t3);
    PutSize(VERSION, 4, t2);
    PutSize(MAGIC, 8, t1);
  }

  lemma MarksThen(m: Watermarks, a: seq<Byte>, b: seq<Byte>)
    ensures PutMarks(m, a) + b == PutMarks(m, a + b)
    ensures |PutMarks(m, a)| == 48 + |a|
  {
    hide Put;
    var t5 := Put(m.plan, 8, a);
    var t4 := Put(m.evidence, 8, t5);
    var t3 := Put(m.policy, 8, t4);
    var t2 := Put(m.path, 8, t3);
    var t1 := Put(m.epoch, 8, t2);
    PutThen(m.plan, 8, a, b);
    PutThen(m.evidence, 8, t5, b);
    PutThen(m.policy, 8, t4, b);
    PutThen(m.path, 8, t3, b);
    PutThen(m.epoch, 8, t2, b);
    PutThen(m.store, 8, t1, b);
    PutSize(m.plan, 8, a);
    PutSize(m.evidence, 8, t5);
    PutSize(m.policy, 8, t4);
    PutSize(m.path, 8, t3);
    PutSize(m.epoch, 8, t2);
    PutSize(m.store, 8, t1);
  }

  lemma SizesThen(h: ImageHead, a: seq<Byte>, b: seq<Byte>)
    ensures PutSizes(h, a) + b == PutSizes(h, a + b)
    ensures |PutSizes(h, a)| == 48 + |a|
  {
    hide Put;
    var t5 := Put(0, 24, a);
    var t4 := Put(h.body, 8, t5);
    var t3 := Put(0, 4, t4);
    var t2 := Put(h.edges, 4, t3);
    var t1 := Put(h.nodes, 4, t2);
    PutThen(0, 24, a, b);
    PutThen(h.body, 8, t5, b);
    PutThen(0, 4, t4, b);
    PutThen(h.edges, 4, t3, b);
    PutThen(h.nodes, 4, t2, b);
    PutThen(h.lineages, 4, t1, b);
    PutSize(0, 24, a);
    PutSize(h.body, 8, t5);
    PutSize(0, 4, t4);
    PutSize(h.edges, 4, t3);
    PutSize(h.nodes, 4, t2);
    PutSize(h.lineages, 4, t1);
  }

  lemma ImageHeadThen(h: ImageHead, a: seq<Byte>, b: seq<Byte>)
    ensures PutImageHead(h, a) + b == PutImageHead(h, a + b)
    ensures |PutImageHead(h, a)| == HEADER_SIZE + |a|
  {
    hide PutVersions, PutMarks, PutSizes;
    SizesThen(h, a, b);
    MarksThen(h.marks, PutSizes(h, a), b);
    VersionsThen(PutMarks(h.marks, PutSizes(h, a)), b);
  }

  function StoredForms(lineages: seq<StoredLineage>): seq<StoredLineage> {
    if lineages == [] then [] else [StoredForm(lineages[0])] + StoredForms(lineages[1..])
  }

  /** Every lineage passes the per-record checks where it stands. */
  predicate AllRebuilt(env: Env, seen: Seen, lineages: seq<StoredLineage>)
    decreases |lineages|
  {
    hide *;
    lineages == [] ||
    match AcceptLineage(env, seen, lineages[0])
    case None => false
    case Some(after) => AllRebuilt(env, after, lineages[1..])
  }

  /** No ledger entry lists more edges than the reader allows. */
  predicate LedgersReadable(lineages: seq<StoredLineage>, limits: Limits) {
    forall l :: l in lineages ==> AllReadable(l.attempts, limits)
  }

  lemma {:induction false} LineagesRoundTrip(env: Env, lineages: seq<StoredLineage>, seen: Seen)
    requires AllRebuilt(env, seen, lineages) && RecordsFit(lineages, env.limits)
    requires forall l :: l in lineages ==> RepLineage(l, env.limits)
    ensures ReadLineages(env, PutLineages(lineages, []), |lineages|, seen) ==
            if LedgersReadable(lineages, env.limits) then Success((StoredForms(lineages), []))
            else Failure(StoreCorrupt)
    decreases |lineages|
  {
    hide AllReadable, PutLineage, ReadLineage, RepLineage, AcceptLineage, StoredForm;
    if lineages != [] {
      var after := AcceptLineage(env, seen, lineages[0]).value;
      LineageRoundTrip(env, lineages[0], seen, after, PutLineages(lineages[1..], []));
      LineagesRoundTrip(env, lineages[1..], after);
    }
  }

  lemma {:induction false} StoredSizes(nodes: seq<Node>, edges: seq<Edge>)
    ensures |StoredNodes(nodes)| == |nodes| && |StoredEdges(edges)| == |edges|
    decreases |nodes| + |edges|
  {
    if nodes != [] {
      StoredSizes(nodes[1..], edges);
    } else if edges != [] {
      StoredSizes(nodes, edges[1..]);
    }
  }

  lemma {:induction false} StoredCounts(lineages: seq<StoredLineage>)
    ensures NodeCount(StoredForms(lineages)) == NodeCount(lineages)
    ensures EdgeCount(StoredForms(lineages)) == EdgeCount(lineages)
    decreases |lineages|
  {
    if lineages != [] {
      StoredCounts(lineages[1..]);
      StoredSizes(lineages[0].nodes, lineages[0].edges);
      assert StoredForms(lineages)[1..] == StoredForms(lineages[1..]);
    }
  }

  /** An image every value of which fits its field and which passes the decoder's checks. */
  ghost predicate GoodImage(env: Env, image: StoreImage) {
    && RepHead(HeadOfImage(image))
    && (forall l :: l in image.lineages ==> RepLineage(l, env.limits))
    && AllRebuilt(env, NOTHING_SEEN, image.lineages)
    && StructuresAccepted(StoredForms(image.lineages), env.limits)
  }

  lemma SealedParts(image: StoreImage, trailer: seq<Byte>)
    requires RepHead(HeadOfImage(image)) && |trailer| == TRAILER_SIZE
    ensures GetImageHead(Sealed(image) + trailer) ==
            HeadRead(HeadOfImage(image), PutLineages(image.lineages, []) + trailer)
    ensures |Sealed(image)| == HEADER_SIZE + |PutLineages(image.lineages, [])|
  {
    hide PutImageHead, GetImageHead, RepHead, PutLineages, NodeCount, EdgeCount;
    var h, body := HeadOfImage(image), PutLineages(image.lineages, []);
    ImageHeadThen(h, body, trailer);
    ImageHeadRoundTrip(h, body + trailer);
  }

  /** What the encoder sealed is opened: the header that was written, and the body. */
  lemma SealedOpens(hash: seq<Byte> -> nat, image: StoreImage, limits: Limits, bytes: seq<Byte>)
    requires IsHash(hash) && RepHead(HeadOfImage(image)) && EncodeImage(hash, image, limits) == Success(bytes)
    ensures OpenImage(hash, bytes, limits) == HeadRead(HeadOfImage(image), PutLineages(image.lineages, []))
  {
    hide PutLineages, GetImageHead, Sealed, RepHead, NodeCount, EdgeCount, RecordsFit, Put, Get, Fits;
    var body, digest := PutLineages(image.lineages, []), hash(Sealed(image));
    var trailer := Put(digest, TRAILER_SIZE, []);
    PutSize(digest, TRAILER_SIZE, []);
    PutGet(digest, TRAILER_SIZE, []);
    SealedParts(image, trailer);
    assert (Sealed(image) + trailer)[..|Sealed(image)|] == Sealed(image);
    assert (Sealed(image) + trailer)[|Sealed(image)|..] == trailer;
    assert (body + trailer)[..|body|] == body;
  }

  /** Round trip: whatever good image the encoder accepts, the decoder gives back, up to the
      derived counters, the last digest, and identities that were present but zero. The encoder
      checks all that the decoder does but the length of a ledger entry, so that length decides. */
  lemma ImageRoundTrip(env: Env, hash: seq<Byte> -> nat, image: StoreImage, bytes: seq<Byte>)
    requires IsHash(hash) && GoodImage(env, image) && EncodeImage(hash, image, env.limits) == Success(bytes)
    ensures DecodeImage(env, hash, bytes) ==
            if LedgersReadable(image.lineages, env.limits)
            then Success(StoreImage(image.marks, StoredForms(image.lineages)))
            else Failure(StoreCorrupt)
  {
    hide LedgersReadable, PutLineages, ReadLineages, OpenImage, RepLineage, AllRebuilt, StructuresAccepted, Sealed,
      RepHead, NodeCount, EdgeCount, StoredForms, RecordsFit, Fits;
    SealedOpens(hash, image, env.limits, bytes);
    assert RecordsFit(image.lineages, env.limits);
    LineagesRoundTrip(env, image.lineages, NOTHING_SEEN);
    StoredCounts(image.lineages);
  }
}
