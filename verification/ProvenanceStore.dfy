// The store as the object the program mutates (src/store.cpp, src/store_api.cpp,
// src/store_query.cpp, src/persistence.cpp): lineage objects, reverse indexes, watermarks and
// the publisher registry. Each public operation is proved to do to the object exactly what the
// function of the same name does to its value; the theorems are about those functions.
module ProvenanceStores {
  import opened Types
  import opened Ordering
  import opened Digraph
  import opened GraphModel
  import opened StoreTypes
  import opened CurrentnessModel
  import opened CommitPipeline
  import opened LineageObjects
  import opened Operations
  import opened StoreLoops
  import opened Images
  import GraphClass = ProvenanceGraphClass

  /** The limits the defaults satisfy: a traversal or a cycle check can visit every record. */
  predicate Roomy(limits: Limits) {
    limits.Positive() && limits.maxNodes <= limits.maxVisited
  }

  /** A compacted lineage with its counters. */
  function Recounted(lin: Lineage, done: Compaction): Lineage {
    lin.(graph := done.graph,
         state := lin.state.(
           nodeCount := |done.graph.nodes|, edgeCount := |done.graph.edges|,
           compactedCount := lin.state.compactedCount + done.count, historyCount := |HistoryRecords(done.graph)|))
  }

  /** After a compaction nothing refused, by where the generations stop. */
  lemma AccountCases(s: Store, lid: nat, done: Compaction)
    requires lid in s.lineages && done.refused == Ok
    ensures
      var lin := Recounted(s.lineages[lid], done);
      var advanced := lin.(state := lin.state.(lineageGeneration := lin.state.lineageGeneration + 1));
      var after := AfterCompaction(s, lid, done);
      if done.count == 0 then after == OpResult(WithLineage(s, lid, lin), Ok)
      else if Next(lin.state.lineageGeneration).None? then after == OpResult(WithLineage(s, lid, lin), ResourceLimit)
      else if Next(s.marks.store).None? then after == OpResult(WithLineage(s, lid, advanced), ResourceLimit)
      else after == OpResult(Marked(WithLineage(s, lid, advanced)), Ok)
  {
    hide HistoryRecords;
  }

  lemma Refused(s: Store, lid: nat, done: Compaction)
    requires lid in s.lineages && done.refused != Ok
    ensures AfterCompaction(s, lid, done) ==
            OpResult(WithLineage(s, lid, s.lineages[lid].(graph := done.graph)), done.refused)
  {
    hide HistoryRecords, Next;
  }

  /** What stage 14 concludes, from the value of the store it leaves. */
  lemma ConcludedAs(s: Store, lid: nat, r: Request, node: Node, outcome: Outcome, settled: Lineage, partial: Lineage,
                    after: Store)
    requires AttemptKeyOf(r.authority) in settled.attempts
    requires after == Marked(WithLineage(s, lid, partial)).(
               lineages := WithLineage(s, lid, partial).lineages[lid := settled],
               indexes := if outcome != Duplicate && r.kind != LinkKind then IndexNode(s.indexes, node, lid)
                 else s.indexes)
    ensures
      var record := settled.attempts[AttemptKeyOf(r.authority)];
      Concluded(s, lid, r, node, outcome, settled) == CommitResult(after, outcome, Some(
        PublicationOf(settled, after.marks, record.node, record.edges, record.lifecycle, record.currentness)))
  {
    hide IndexNode;
    assert s.lineages[lid := partial][lid := settled] == s.lineages[lid := settled];
  }

  class ProvenanceStore {
    const env: Env
    var lineages: map<nat, LineageObject>
    var routeIndex: map<nat, nat>
    var indexes: Indexes
    var marks: Watermarks
    var publishers: Registry
    var recovered: bool
    var epochBootstrapped: bool

    /** The lineage objects and their graphs. */
    ghost function Footprint(): set<object>
      reads this`lineages
    {
      (set id | id in lineages :: lineages[id] as object) + (set id | id in lineages :: lineages[id].graph as object)
    }

    /** A lineage object under its own identity. */
    ghost predicate ObjectSound(id: nat)
      requires id in lineages
      reads this`lineages, lineages[id], lineages[id].graph
    {
      lineages[id].graph.Valid() && lineages[id].SmallLineage(env.limits) && lineages[id].state.id == id
    }

    ghost predicate Separate(a: nat, b: nat)
      requires a in lineages && b in lineages
      reads this`lineages
    {
      a != b ==> lineages[a] != lineages[b] && lineages[a].graph != lineages[b].graph
    }

    ghost predicate Valid()
      reads this`lineages, Footprint()
    {
      && Roomy(env.limits)
      && (forall id :: id in lineages ==> ObjectSound(id))
      && (forall a, b :: a in lineages && b in lineages ==> Separate(a, b))
    }

    ghost function Lineages(): map<nat, Lineage>
      reads this`lineages, Footprint()
    {
      map id | id in lineages :: lineages[id].View()
    }

    ghost function View(): Store
      reads this, Footprint()
    {
      Store(Lineages(), routeIndex, indexes, marks, publishers, recovered, epochBootstrapped)
    }

    constructor (env: Env)
      requires Roomy(env.limits)
      ensures Valid() && View() == EMPTY_STORE && Footprint() == {} && this.env == env
    {
      this.env := env;
      lineages, routeIndex := map[], map[];
      indexes := Indexes(map[], map[], map[], map[], map[], map[]);
      marks := Watermarks(0, 0, 0, 0, 0, 0);
      publishers, recovered, epochBootstrapped := map[], false, false;
    }

    /** What validity says of one lineage object. */
    lemma One(lid: nat)
      requires Valid() && lid in lineages
      ensures lineages[lid] in Footprint() && lineages[lid].graph in Footprint()
      ensures lineages[lid].graph.Valid() && lineages[lid].SmallLineage(env.limits) && lineages[lid].state.id == lid
      ensures Roomy(env.limits)
      ensures forall id :: id in lineages && id != lid ==>
                lineages[id] != lineages[lid] && lineages[id].graph != lineages[lid].graph
      ensures lid in Lineages() && Lineages()[lid] == lineages[lid].View() && this !in Footprint()
    {
      hide GraphClass.ProvenanceGraph.Valid, GraphClass.ProvenanceGraph.View;
      forall id | id in lineages && id != lid
        ensures lineages[id] != lineages[lid] && lineages[id].graph != lineages[lid].graph
      {
        assert Separate(id, lid);
      }
    }

    lemma NotMine()
      ensures this !in Footprint()
    {
    }

    lemma RoomyOf()
      requires Valid()
      ensures Roomy(env.limits)
    {
      hide ObjectSound;
    }

    /** Only one lineage object changed. */
    twostate lemma OneChanged(lid: nat)
      requires old(Valid()) && lineages == old(lineages) && lid in lineages
      requires lineages[lid].graph.Valid() && lineages[lid].SmallLineage(env.limits) && lineages[lid].state.id == lid
      requires forall id :: id in lineages && id != lid ==> unchanged(lineages[id]) && unchanged(lineages[id].graph)
      ensures Valid() && Footprint() == old(Footprint())
      ensures Lineages() == old(Lineages())[lid := lineages[lid].View()]
    {
      hide GraphClass.ProvenanceGraph.Valid, GraphClass.ProvenanceGraph.View;
      forall a, b | a in lineages && b in lineages ensures Separate(a, b) {
        assert old(Separate(a, b));
      }
      forall id | id in lineages && id != lid ensures ObjectSound(id) {
        assert old(ObjectSound(id));
      }
    }

    /** No lineage object changed. */
    twostate lemma NothingChanged()
      requires lineages == old(lineages)
      requires forall id :: id in lineages ==> unchanged(lineages[id]) && unchanged(lineages[id].graph)
      ensures Lineages() == old(Lineages()) && Footprint() == old(Footprint())
      ensures old(Valid()) ==> Valid()
    {
      hide GraphClass.ProvenanceGraph.Valid, GraphClass.ProvenanceGraph.View;
    }

    /** Only a new lineage object was added. */
    twostate lemma OneAdded(lid: nat, new lin: LineageObject)
      requires old(Valid()) && lid !in old(lineages) && lineages == old(lineages)[lid := lin]
      requires fresh(lin) && fresh(lin.graph)
      requires lin.graph.Valid() && lin.SmallLineage(env.limits) && lin.state.id == lid
      requires forall id :: id in lineages && id != lid ==> unchanged(lineages[id]) && unchanged(lineages[id].graph)
      ensures Valid() && Footprint() == old(Footprint()) + {lin, lin.graph}
      ensures Lineages() == old(Lineages())[lid := lin.View()]
    {
      hide GraphClass.ProvenanceGraph.Valid, GraphClass.ProvenanceGraph.View, LineageObject.View,
        LineageObject.SmallLineage;
      forall id | id in lineages ensures ObjectSound(id) {
        assert id != lid ==> old(ObjectSound(id));
      }
      forall a, b | a in lineages && b in lineages ensures Separate(a, b) {
        assert a != lid && b != lid ==> old(Separate(a, b));
      }
      AddedFootprint(old(lineages), lid, lin);
      AddedValues(lid, lin);
    }

    static lemma AddedFootprint(before: map<nat, LineageObject>, lid: nat, lin: LineageObject)
      requires lid !in before
      ensures
        var after := before[lid := lin];
        (set id | id in after :: after[id] as object) + (set id | id in after :: after[id].graph as object) ==
        (set id | id in before :: before[id] as object) + (set id | id in before :: before[id].graph as object) +
          {lin, lin.graph}
    {
      var after := before[lid := lin];
      forall id | id in before ensures after[id] == before[id] {
        assert id != lid;
      }
      assert after[lid] == lin;
      assert (set id | id in after :: after[id] as object) == (set id | id in before :: before[id] as object) + {lin};
      assert (set id | id in after :: after[id].graph as object) ==
             (set id | id in before :: before[id].graph as object) + {lin.graph};
    }

    twostate lemma AddedValues(lid: nat, new lin: LineageObject)
      requires lid !in old(lineages) && lineages == old(lineages)[lid := lin]
      requires forall id :: id in lineages && id != lid ==> unchanged(lineages[id]) && unchanged(lineages[id].graph)
      ensures Lineages() == old(Lineages())[lid := lin.View()]
    {
      hide GraphClass.ProvenanceGraph.View, LineageObject.View;
    }

    /** Freshly loaded objects, installed as the store's lineages. */
    lemma Installed(loaded: map<nat, LineageObject>)
      requires Roomy(env.limits) && lineages == loaded
      requires forall id :: id in loaded ==>
                 loaded[id].graph.Valid() && loaded[id].SmallLineage(env.limits) && loaded[id].state.id == id
      requires forall a, b :: a in loaded && b in loaded && a != b ==>
                 loaded[a] != loaded[b] && loaded[a].graph != loaded[b].graph
      ensures Valid() && Lineages() == Values(loaded)
    {
      hide GraphClass.ProvenanceGraph.Valid, GraphClass.ProvenanceGraph.View, LineageObject.SmallLineage;
    }

    lemma LineageKeys()
      ensures Lineages().Keys == lineages.Keys && |Lineages()| == |lineages|
    {
      hide GraphClass.ProvenanceGraph.View;
      assert Lineages().Keys == lineages.Keys;
      assert |Lineages().Keys| == |lineages.Keys|;
    }

    // -------------------------------------------------------------------------------------
    // Stages 3 to 6
    // -------------------------------------------------------------------------------------

    method Authorize(r: Request) returns (o: Outcome)
      ensures o == CommitPipeline.Authorize(env, View(), r)
    {
      hide LivenessOf;
      if !r.authority.HasIdentity() {
        return Unauthorized;
      }
      if marks.epoch == 0 {
        return StaleEpochOutcome;
      }
      if r.authority.epoch != marks.epoch {
        return StaleEpochOutcome;
      }
      if LivenessOf(publishers, (r.authority.publisher, r.authority.boot)) != Live {
        return StaleWorker;
      }
      var derived := env.lineageIdOf(r.key);
      var lid := if r.explicitLineage.Some? then r.explicitLineage.value else derived;
      if r.explicitLineage.Some? && r.explicitLineage.value != derived {
        return MalformedRequest;
      }
      if !r.authority.scope.Permits(lid, r.key.route) {
        return Unauthorized;
      }
      return Ok;
    }

    method Acquire(lid: nat, key: LineageKey) returns (acquired: bool)
      requires Valid() && Roomy(env.limits)
      modifies this`lineages, this`routeIndex
      ensures Valid() && fresh(Footprint() - old(Footprint()))
      ensures acquired <==> CommitPipeline.Acquire(env, old(View()), lid, key).Some?
      ensures acquired ==> lid in lineages && View() == CommitPipeline.Acquire(env, old(View()), lid, key).value
      ensures !acquired ==> View() == old(View()) && Footprint() == old(Footprint())
    {
      hide GraphClass.ProvenanceGraph.Valid, GraphClass.ProvenanceGraph.View, Valid, Lineages, Footprint;
      LineageKeys();
      if lid in lineages {
        return true;
      }
      if |lineages| >= env.limits.maxLineages {
        return false;
      }
      ghost var before := lineages;
      assert forall id :: id in before ==> allocated(before[id]) && allocated(before[id].graph);
      var lin := new LineageObject(lid, key);
      lineages := lineages[lid := lin];
      routeIndex := routeIndex[key.route := lid];
      OneAdded(lid, lin);
      return true;
    }

    // -------------------------------------------------------------------------------------
    // Stages 7 to 13: decisions only
    // -------------------------------------------------------------------------------------

    method BuildRouteState(lid: nat, r: Request) returns (v: Verdict)
      requires Valid() && lid in lineages
      ensures v == CommitPipeline.BuildRouteState(env, View(), lineages[lid].View(), lid, r)
    {
      hide GraphClass.ProvenanceGraph.Valid, BlankCore, NewNode, IsSuccessorRelation, EdgesAt, Sorted;
      var lin := lineages[lid];
      var core := BlankCore(lid, r);
      if r.generation < lin.state.generation {
        return Reject(StaleRouteOutcome);
      }
      var k := (r.key.route, r.generation);
      var published := if k in indexes.generation then indexes.generation[k] else 0;
      if published != 0 && published in lin.graph.nodes {
        var e := lin.graph.nodes[published];
        var probe := core.(authority := core.authority.(attempt := e.core.authority.attempt));
        if env.NodeId(probe) == e.id {
          var edges := lin.graph.OutgoingIds(e.id);
          return Answer(Duplicate, Publication(lid, e.id, edges, lin.state.lineageGeneration, marks.store,
                                               e.lifecycle, e.currentness));
        }
        return Reject(Conflict);
      }
      if r.rootReason.None? && r.edges == [] {
        return Reject(InvalidDerivation);
      }
      if r.rootReason.Some? {
        if lin.state.generation != 0 {
          return Reject(InvalidDerivation);
        }
        var i := 0;
        while i < |r.edges|
          invariant 0 <= i <= |r.edges|
          invariant forall j :: 0 <= j < i ==> !IsSuccessorRelation(r.edges[j].etype)
        {
          if IsSuccessorRelation(r.edges[i].etype) {
            return Reject(InvalidDerivation);
          }
          i := i + 1;
        }
      }
      return Proceed(NewNode(env, core, Current), []);
    }

    method BuildRecord(lid: nat, r: Request) returns (v: Verdict)
      requires Valid() && lid in lineages
      ensures v == StageBuild(env, View(), lineages[lid].View(), lid, r)
    {
      hide GraphClass.ProvenanceGraph.Valid, CommitPipeline.BuildRouteState, BlankCore, NewNode;
      var lin := lineages[lid];
      if r.kind == RouteStateKind {
        v := BuildRouteState(lid, r);
      } else if r.kind == DeclarationKind {
        v := Proceed(NewNode(env, BlankCore(lid, r).(stateDigest := 0), Declared), []);
      } else if r.kind == LinkKind {
        v := Proceed(NewNode(env, BlankCore(lid, r), Declared), []);
      } else if r.target !in lin.graph.nodes {
        v := Reject(if r.target in indexes.owner then InvalidDerivation else NodeNotFound);
      } else {
        var t := lin.graph.nodes[r.target];
        if r.kind == CorrectionKind {
          v := BuildCorrection(env, lid, r, t);
        } else if t.lifecycle == Retired || t.lifecycle == Revoked {
          v := Reject(InvalidDerivation);
        } else if r.kind == RevalidationKind && !r.allowNonCurrent && t.id != lin.state.currentNode {
          v := Reject(InvalidDerivation);
        } else {
          var core := BlankCore(lid, r).(
            kind := AdministrativeAction, route := t.core.route, generation := t.core.generation,
            stateDigest := t.core.stateDigest);
          v := Proceed(NewNode(env, core, Current), []);
        }
      }
    }

    method CheckFreshness(b: Bindings) returns (o: Outcome)
      ensures o == StageFreshness(marks, b)
    {
      if b.path.Some? && marks.path != 0 {
        if b.path.value.generation < marks.path {
          return StalePathOutcome;
        }
        if b.path.value.generation > marks.path {
          return InvalidSourceGeneration;
        }
      }
      if b.policy.Some? && marks.policy != 0 {
        if b.policy.value < marks.policy {
          return StalePolicyOutcome;
        }
        if b.policy.value > marks.policy {
          return InvalidSourceGeneration;
        }
      }
      if b.convergence.Some? && marks.plan != 0 && b.convergence.value.generation < marks.plan {
        return StalePlan;
      }
      return Ok;
    }

    method CheckLimits(lid: nat, r: Request, edges: seq<Edge>) returns (o: Outcome)
      requires lid in lineages
      ensures o == StageLimits(env, lineages[lid].View(), r, edges)
    {
      var lin := lineages[lid];
      if |r.edges| > env.limits.maxBatch {
        return ResourceLimit;
      }
      if r.kind != LinkKind {
        if |lin.graph.nodes| >= env.limits.maxNodes {
          return ResourceLimit;
        }
        if |lin.graph.edges| + |edges| > env.limits.maxEdges {
          return ResourceLimit;
        }
      } else if |lin.graph.edges| >= env.limits.maxEdges {
        return ResourceLimit;
      }
      if lin.state.historyCount >= env.limits.maxHistory {
        return ResourceLimit;
      }
      if |lin.attempts| >= env.limits.maxAttempts {
        return ResourceLimit;
      }
      return Ok;
    }

    /** Stage 12. */
    method CheckEdges(lid: nat, r: Request, node: Node) returns (edges: Result<seq<Edge>>)
      requires Valid() && lid in lineages
      ensures edges == StageEdges(env, View(), lineages[lid].View(), lid, r, node)
    {
      hide GraphClass.ProvenanceGraph.Valid, GraphClass.ProvenanceGraph.View, CommitPipeline.BuildEdge,
           CommitPipeline.BuildLink, Valid, Lineages, ObjectSound;
      One(lid);
      if r.kind == LinkKind {
        var link := lineages[lid].BuildLink(env, lid, r);
        edges := if link.Failure? then Failure(link.outcome) else Success([link.value]);
      } else {
        edges := lineages[lid].BuildEdges(env, View(), indexes.owner, lid, r, node);
        NothingChanged();
      }
    }

    /** Stages 11 to 13 for the record stage 10 built. */
    method CheckRecord(lid: nat, r: Request, node: Node) returns (v: Verdict)
      requires Valid() && lid in lineages
      ensures v == StageChecks(env, View(), lineages[lid].View(), lid, r, node)
    {
      hide GraphClass.ProvenanceGraph.Valid, GraphClass.ProvenanceGraph.View, StageFreshness, StageLimits, StageEdges,
           Valid, Lineages, ObjectSound;
      var freshness := CheckFreshness(node.core.bindings);
      NothingChanged();
      if freshness != Ok {
        return Reject(freshness);
      }
      var edges := CheckEdges(lid, r, node);
      NothingChanged();
      if edges.Failure? {
        return Reject(edges.outcome);
      }
      var room := CheckLimits(lid, r, edges.value);
      NothingChanged();
      if room != Ok {
        return Reject(room);
      }
      return Proceed(node, edges.value);
    }

    method Admit(lid: nat, r: Request) returns (v: Verdict)
      requires Valid() && lid in lineages
      ensures v == CommitPipeline.Admit(env, View(), lineages[lid].View(), lid, r)
    {
      hide GraphClass.ProvenanceGraph.Valid, StageBuild, StageChecks;
      var lin := lineages[lid];
      if lin.state.lifecycle == RetiredLineage {
        return Reject(RetiredOutcome);
      }
      if lin.state.lifecycle == RevokedLineage {
        return Reject(RevokedOutcome);
      }
      var digest := env.RequestDigest(r);
      var key := AttemptKeyOf(r.authority);
      if key in lin.attempts {
        var record := lin.attempts[key];
        if record.request == digest {
          return Answer(Idempotent, Publication(lid, record.node, record.edges, lin.state.lineageGeneration,
                                                marks.store, record.lifecycle, record.currentness));
        }
        return Reject(Conflict);
      }
      if r.authority.expectedLineage.Some? && r.authority.expectedLineage.value != lin.state.lineageGeneration {
        return Reject(StaleLineageGeneration);
      }
      if r.authority.expectedStore.Some? && r.authority.expectedStore.value != marks.store {
        return Reject(StaleStoreGeneration);
      }
      var built := BuildRecord(lid, r);
      NothingChanged();
      if !built.Proceed? {
        return built;
      }
      v := CheckRecord(lid, r, built.node);
      NothingChanged();
    }

    // -------------------------------------------------------------------------------------
    // Stage 14
    // -------------------------------------------------------------------------------------

    method IndexRecord(n: Node, lid: nat)
      modifies this`indexes
      ensures indexes == IndexNode(old(indexes), n, lid)
    {
      hide IndexAdd;
      var b := n.core.bindings;
      indexes := indexes.(owner := indexes.owner[n.id := lid]);
      if n.IsRouteState() {
        indexes := indexes.(generation := indexes.generation[(n.core.route, n.core.generation) := n.id]);
      }
      if b.path.Some? {
        indexes := indexes.(pathAuthority := IndexAdd(indexes.pathAuthority, b.path.value.generation, n.id));
      }
      if b.policy.Some? {
        indexes := indexes.(policy := IndexAdd(indexes.policy, b.policy.value, n.id));
      }
      if b.adaptation.Some? {
        indexes := indexes.(policy := IndexAdd(indexes.policy, b.adaptation.value.policy, n.id),
                            evidence := IndexAdd(indexes.evidence, b.adaptation.value.evidence, n.id));
      }
      indexes := indexes.(boot := IndexAdd(indexes.boot, n.core.authority.boot, n.id));
    }

    /** Settles the lineage of an accepted request. */
    method SettleOne(lid: nat, r: Request, node: Node, inserted: Outcome, listed: seq<Edge>, ghost s: Store)
      returns (record: AttemptRecord)
      requires Valid() && lid in lineages && marks == s.marks && publishers == s.publishers
      requires LineageAt(s, lid).state == lineages[lid].state && LineageAt(s, lid).attempts == lineages[lid].attempts
      modifies lineages[lid], lineages[lid].graph
      ensures Valid() && Footprint() == old(Footprint()) && lid in Lineages()
      ensures Lineages() == old(Lineages())[lid := CommitPipeline.Settle(env, s, LineageAt(s, lid), r, node,
                Insertion(old(lineages[lid].graph.View()), inserted, listed, Ok))]
      ensures AttemptKeyOf(r.authority) in Lineages()[lid].attempts
      ensures record == Lineages()[lid].attempts[AttemptKeyOf(r.authority)]
    {
      hide GraphClass.ProvenanceGraph.Valid, GraphClass.ProvenanceGraph.View, CommitPipeline.Settle, Valid,
           Lineages, Footprint, ObjectSound, LineageObject.SmallLineage;
      One(lid);
      record := lineages[lid].Settle(env, s, LineageAt(s, lid), marks, publishers, r, node, inserted, listed);
      OneChanged(lid);
    }

    /** The part of stage 14 that nothing can refuse any more. */
    method Conclude(lid: nat, r: Request, node: Node, inserted: Outcome, listed: seq<Edge>, ghost s: Store)
      returns (publication: Publication)
      requires Valid() && lid in lineages && lid in s.lineages && this !in Footprint()
      requires View() == Marked(WithLineage(s, lid, LineageAt(s, lid).(graph := lineages[lid].graph.View())))
      modifies this`indexes, lineages[lid], lineages[lid].graph
      ensures Valid() && Footprint() == old(Footprint())
      ensures CommitResult(View(), inserted, Some(publication)) ==
              Concluded(s, lid, r, node, inserted,
                        CommitPipeline.Settle(env, Marked(s), LineageAt(s, lid), r, node,
                                              Insertion(old(lineages[lid].graph.View()), inserted, listed, Ok)))
    {
      hide GraphClass.ProvenanceGraph.Valid, GraphClass.ProvenanceGraph.View, CommitPipeline.Settle, IndexNode, Valid,
           Lineages, Footprint, ObjectSound, LineageObject.SmallLineage, Concluded;
      One(lid);
      ghost var g := lineages[lid].graph.View();
      var record := SettleOne(lid, r, node, inserted, listed, Marked(s));
      One(lid);
      label Settled:
      if inserted != Duplicate && r.kind != LinkKind {
        IndexRecord(node, lid);
      }
      NothingChanged@Settled();
      ConcludedAs(s, lid, r, node, inserted, lineages[lid].View(), LineageAt(s, lid).(graph := g), View());
      return Publication(lid, record.node, record.edges, lineages[lid].state.lineageGeneration, marks.store,
                         record.lifecycle, record.currentness);
    }

    /** Stage 14 once the batch is in. */
    method Complete(lid: nat, r: Request, node: Node, inserted: Outcome, listed: seq<Edge>, refused: Outcome,
                    ghost s: Store)
      returns (outcome: Outcome, publication: Option<Publication>)
      requires Valid() && lid in lineages && lid in s.lineages && this !in Footprint()
      requires View() == WithLineage(s, lid, LineageAt(s, lid).(graph := lineages[lid].graph.View()))
      modifies this`marks, this`indexes, lineages[lid], lineages[lid].graph
      ensures Valid() && Footprint() == old(Footprint())
      ensures CommitResult(View(), outcome, publication) ==
              Completed(env, s, lid, r, node, Insertion(old(lineages[lid].graph.View()), inserted, listed, refused))
    {
      hide GraphClass.ProvenanceGraph.Valid, GraphClass.ProvenanceGraph.View, CommitPipeline.Settle, Concluded, Valid,
           Lineages, Footprint, ObjectSound, Next, LineageObject.SmallLineage;
      One(lid);
      var lin := lineages[lid];
      if refused != Ok {
        return refused, None;
      }
      if Next(marks.store).None? {
        return ResourceLimit, None;
      }
      marks := marks.(store := marks.store + 1);
      if Next(lin.state.lineageGeneration).None? {
        return ResourceLimit, None;
      }
      var answer := Conclude(lid, r, node, inserted, listed, s);
      return inserted, Some(answer);
    }

    method Apply(lid: nat, r: Request, node: Node, edges: seq<Edge>)
      returns (outcome: Outcome, publication: Option<Publication>)
      requires Valid() && lid in lineages
      requires r.kind == LinkKind ==> edges != []
      modifies this`marks, this`indexes, lineages[lid], lineages[lid].graph
      ensures Valid() && Footprint() == old(Footprint())
      ensures CommitResult(View(), outcome, publication) ==
              CommitPipeline.Apply(env, old(View()), lid, r, node, edges)
    {
      hide GraphClass.ProvenanceGraph.Valid, GraphClass.ProvenanceGraph.View, Completed,
           CommitPipeline.InsertBatch, Valid, Lineages, Footprint, ObjectSound, LineageObject.SmallLineage;
      NotMine();
      One(lid);
      ghost var s := View();
      var inserted, listed, refused := lineages[lid].InsertBatch(r, node, edges, env.limits);
      OneChanged(lid);
      outcome, publication := Complete(lid, r, node, inserted, listed, refused, s);
    }

    /** Stages 7 to 14. */
    method Pursue(lid: nat, r: Request) returns (outcome: Outcome, publication: Option<Publication>)
      requires Valid() && lid in lineages
      modifies this`marks, this`indexes, lineages[lid], lineages[lid].graph
      ensures Valid() && Footprint() == old(Footprint())
      ensures lid in old(View()).lineages
      ensures CommitResult(View(), outcome, publication) == Pursued(env, old(View()), lid, r)
    {
      hide GraphClass.ProvenanceGraph.Valid, GraphClass.ProvenanceGraph.View, CommitPipeline.Admit,
           CommitPipeline.Apply, Valid, Lineages, Footprint, ObjectSound;
      One(lid);
      var verdict := Admit(lid, r);
      NothingChanged();
      match verdict
      case Reject(o) =>
        return o, None;
      case Answer(o, p) =>
        return o, Some(p);
      case Proceed(node, edges) =>
        outcome, publication := Apply(lid, r, node, edges);
    }

    /** The single authoritative commit pipeline. */
    method Commit(r: Request) returns (outcome: Outcome, publication: Option<Publication>)
      requires Valid()
      modifies this, Footprint()
      ensures Valid() && fresh(Footprint() - old(Footprint()))
      ensures CommitResult(View(), outcome, publication) == CommitPipeline.Commit(env, old(View()), r)
    {
      hide GraphClass.ProvenanceGraph.Valid, GraphClass.ProvenanceGraph.View, CommitPipeline.Authorize,
           CommitPipeline.Acquire, Pursued, Valid, Lineages, ObjectSound;
      var authorized := Authorize(r);
      NothingChanged();
      if authorized != Ok {
        return authorized, None;
      }
      var lid := LineageIdOf(env, r);
      RoomyOf();
      var acquired := Acquire(lid, r.key);
      if !acquired {
        return ResourceLimit, None;
      }
      One(lid);
      outcome, publication := Pursue(lid, r);
    }

    // -------------------------------------------------------------------------------------
    // Re-evaluation through the indexes
    // -------------------------------------------------------------------------------------

    method GroupByOwner(ids: seq<nat>) returns (grouped: map<nat, seq<nat>>)
      ensures Groups(indexes.owner, Elements(ids), grouped)
    {
      hide Groups;
      grouped := map[];
      ElementsAll(ids);
      GroupNothing(indexes.owner);
      var i := 0;
      while i < |ids|
        invariant 0 <= i <= |ids| && Groups(indexes.owner, Elements(ids[..i]), grouped)
      {
        ElementsPrefix(ids, i);
        if ids[i] in indexes.owner {
          GroupOwned(indexes.owner, Elements(ids[..i]), grouped, ids[i]);
          var o := indexes.owner[ids[i]];
          grouped := grouped[o := (if o in grouped then grouped[o] else []) + [ids[i]]];
        } else {
          GroupUnowned(indexes.owner, Elements(ids[..i]), grouped, ids[i]);
        }
        i := i + 1;
      }
    }

    /** Re-evaluates the records of one owner, if the lineage exists. */
    method ReevaluateGroup(lid: nat, ids: seq<nat>)
      requires Valid()
      modifies Footprint()
      ensures Valid() && unchanged(this) && Footprint() == old(Footprint())
      ensures Lineages() == RegroupedOne(old(Lineages()), lid, marks, publishers, Elements(ids))
    {
      hide GraphClass.ProvenanceGraph.Valid, GraphClass.ProvenanceGraph.View, Valid, Lineages, Footprint, ObjectSound,
        Refresh;
      NotMine();
      LineageKeys();
      if lid in lineages {
        One(lid);
        var lin := lineages[lid];
        var reevaluated := lin.Reevaluate(ids, marks, publishers);
        OneChanged(lid);
      }
    }

    method ReevaluateIndex(ids: seq<nat>)
      requires Valid()
      modifies Footprint()
      ensures Valid() && unchanged(this) && Footprint() == old(Footprint())
      ensures View() == RefreshOwned(old(View()), Elements(ids))
    {
      hide GraphClass.ProvenanceGraph.Valid, GraphClass.ProvenanceGraph.View, Valid, Lineages, Footprint, ObjectSound,
        Refresh, Groups, RefreshOwned, RefreshSome, Enumerates;
      NotMine();
      ghost var s := View();
      var grouped := GroupByOwner(ids);
      NothingChanged();
      var owners := Sorted(grouped.Keys);
      SortedAll(grouped.Keys);
      ElementsSorted(grouped.Keys);
      RefreshSomeNothing(s, Elements(ids));
      ElementsAll(owners);
      var i := 0;
      while i < |owners|
        invariant 0 <= i <= |owners| && Valid() && unchanged(this) && Footprint() == old(Footprint())
        invariant Lineages() == RefreshSome(s, Elements(ids), Elements(owners[..i]))
      {
        RegroupStep(s, Elements(ids), grouped, i);
        ReevaluateGroup(owners[i], grouped[owners[i]]);
        i := i + 1;
      }
      RefreshSomeAll(s, Elements(ids), grouped);
    }

    /** Re-evaluates the records of each listed boot in turn. */
    method ReevaluateBoots(boots: seq<nat>)
      requires Valid()
      modifies Footprint()
      ensures Valid() && unchanged(this) && Footprint() == old(Footprint())
      ensures View() == RefreshOwned(old(View()), NodesOfBoots(indexes, Elements(boots)))
    {
      hide GraphClass.ProvenanceGraph.Valid, GraphClass.ProvenanceGraph.View, Valid, Lineages, Footprint, ObjectSound,
        Refresh, RefreshOwned, NodesOfBoots, IndexAt, Enumerates, View;
      NotMine();
      FieldFacts();
      ghost var s := View();
      RefreshOwnedNothing(s);
      NoBoots(indexes);
      ElementsAll(boots);
      var i := 0;
      while i < |boots|
        invariant 0 <= i <= |boots| && Valid() && unchanged(this) && Footprint() == old(Footprint())
        invariant View() == RefreshOwned(s, NodesOfBoots(indexes, Elements(boots[..i])))
      {
        ElementsPrefix(boots, i);
        NodesOfBootsStep(indexes, Elements(boots[..i]), boots[i]);
        RefreshOwnedTwice(s, NodesOfBoots(indexes, Elements(boots[..i])), IndexAt(indexes.boot, boots[i]));
        var ids := Sorted(IndexAt(indexes.boot, boots[i]));
        ElementsSorted(IndexAt(indexes.boot, boots[i]));
        ReevaluateIndex(ids);
        i := i + 1;
      }
    }

    lemma FieldFacts()
      ensures View() == Store(Lineages(), routeIndex, indexes, marks, publishers, recovered, epochBootstrapped)
    {
    }

    // -------------------------------------------------------------------------------------
    // Publisher registry
    // -------------------------------------------------------------------------------------

    method EstablishEpoch(epoch: nat) returns (established: bool)
      requires Valid()
      modifies this`marks, this`epochBootstrapped
      ensures Valid() && Footprint() == old(Footprint())
      ensures established <==> RegisterEpoch(old(View()), epoch).Some?
      ensures View() == if established then RegisterEpoch(old(View()), epoch).value else old(View())
    {
      hide GraphClass.ProvenanceGraph.Valid, GraphClass.ProvenanceGraph.View, Valid, Lineages, Footprint, ObjectSound;
      NotMine();
      if marks.epoch == 0 {
        marks := marks.(epoch := epoch);
      } else if marks.epoch != epoch {
        if !(recovered && !epochBootstrapped && epoch > marks.epoch) {
          return false;
        }
        marks := marks.(epoch := epoch);
        epochBootstrapped := true;
      }
      return true;
    }

    /** Fences every other live boot of the publisher, for good. */
    method FenceOthers(publisher: nat, boot: nat) returns (superseded: seq<nat>)
      modifies this`publishers
      ensures publishers == FenceAll(old(publishers), OtherLiveBoots(old(publishers), publisher, boot))
      ensures Elements(superseded) == BootsOf(OtherLiveBoots(old(publishers), publisher, boot))
    {
      hide FenceAll, OthersAmong, BootsOf, SortedPairs, OtherLiveBoots;
      ghost var before := publishers;
      var keys := SortedPairs(publishers.Keys);
      FenceNothing(before, publisher, boot);
      OthersAmongAll(before, publisher, boot);
      assert keys[..0] == [] && keys[..|keys|] == keys;
      superseded := [];
      var i := 0;
      while i < |keys|
        invariant 0 <= i <= |keys|
        invariant publishers == FenceAll(before, OthersAmong(before, publisher, boot, keys[..i]))
        invariant Elements(superseded) == BootsOf(OthersAmong(before, publisher, boot, keys[..i]))
      {
        KeysListed(before, i);
        FenceStep(before, publisher, boot, keys, i);
        var k := keys[i];
        if k.0 == publisher && k.1 != boot && publishers[k].live {
          publishers := publishers[k := publishers[k].(live := false, fenced := true)];
          superseded := superseded + [k.1];
        }
        i := i + 1;
      }
    }

    method Register(publisher: nat, boot: nat, epoch: nat, scope: Scope) returns (outcome: Outcome)
      requires Valid()
      modifies this`marks, this`epochBootstrapped, this`publishers, Footprint()
      ensures Valid() && Footprint() == old(Footprint())
      ensures OpResult(View(), outcome) == Operations.Register(env, old(View()), publisher, boot, epoch, scope)
    {
      hide GraphClass.ProvenanceGraph.Valid, GraphClass.ProvenanceGraph.View, Valid, Lineages, Footprint, ObjectSound,
           RegisterEpoch, FenceAll, OtherLiveBoots, RefreshOwned, BootNodes, NodesOfBoots, BootsOf;
      NotMine();
      if publisher == 0 || boot == 0 || epoch == 0 {
        return Unauthorized;
      }
      var established := EstablishEpoch(epoch);
      if !established {
        return StaleEpochOutcome;
      }
      if scope == NoScope {
        return Unauthorized;
      }
      var key := (publisher, boot);
      if key in publishers && publishers[key].fenced {
        return StaleWorker;
      }
      if |publishers| >= env.limits.maxPublishers {
        return ResourceLimit;
      }
      ghost var others := OtherLiveBoots(publishers, publisher, boot);
      label Fencing:
      var superseded := FenceOthers(publisher, boot);
      NothingChanged@Fencing();
      publishers := publishers[key := PublisherRecord(epoch, scope, true, false)];
      BootNodesAre(indexes, others);
      ReevaluateBoots(superseded);
      return Ok;
    }

    method CheckAdministrator(a: Authority) returns (o: Outcome)
      ensures o == Operations.CheckAdministrator(View(), a)
    {
      hide LivenessOf;
      if !a.HasIdentity() {
        return Unauthorized;
      }
      if marks.epoch == 0 || a.epoch != marks.epoch {
        return StaleEpochOutcome;
      }
      if LivenessOf(publishers, (a.publisher, a.boot)) != Live {
        return StaleWorker;
      }
      if a.scope != Fabric {
        return Unauthorized;
      }
      return Ok;
    }

    method Fence(publisher: nat, boot: nat, a: Authority) returns (outcome: Outcome)
      requires Valid()
      modifies this`publishers, Footprint()
      ensures Valid() && Footprint() == old(Footprint())
      ensures OpResult(View(), outcome) == Operations.Fence(old(View()), publisher, boot, a)
    {
      hide GraphClass.ProvenanceGraph.Valid, GraphClass.ProvenanceGraph.View, Valid, Lineages, Footprint, ObjectSound,
           Operations.CheckAdministrator, FenceAll, RefreshOwned, BootNodes, NodesOfBoots, BootsOf;
      NotMine();
      if publisher == 0 || boot == 0 {
        return MalformedRequest;
      }
      var checked := CheckAdministrator(a);
      NothingChanged();
      if checked != Ok {
        return checked;
      }
      var key := (publisher, boot);
      if key !in publishers {
        return NodeNotFound;
      }
      FenceOne(publishers, key);
      publishers := publishers[key := publishers[key].(live := false, fenced := true)];
      BootNodesAre(indexes, {key});
      OneBoot(key);
      ReevaluateBoots([boot]);
      return Updated;
    }

    // -------------------------------------------------------------------------------------
    // Dependency notifications
    // -------------------------------------------------------------------------------------

    /** The records an ascending index lists below a value. */
    method Collect(index: ReverseIndex, value: nat) returns (affected: seq<nat>)
      ensures Elements(affected) == Below(index, value)
    {
      hide Below, Under, Sorted, Elements;
      var keys: seq<nat> := Sorted(index.Keys);
      UnderStart(index);
      affected := [];
      NoElements();
      var i := 0;
      while i < |keys| && keys[i] < value
        invariant 0 <= i <= |keys| && Elements(affected) == Under(index, keys[..i])
        invariant forall j :: 0 <= j < i ==> keys[j] < value
      {
        UnderStep(index, keys, i);
        var listed := Sorted(index[keys[i]]);
        ElementsSorted(index[keys[i]]);
        ElementsJoin(affected, listed);
        affected := affected + listed;
        i := i + 1;
      }
      UnderIsBelow(index, value, i);
    }

    /** What the notification does to the watermarks, and the records it makes stale. */
    method Announce(n: Notification) returns (outcome: Outcome, affected: seq<nat>)
      modifies this`marks
      ensures outcome == NotificationOutcome(old(View()), n)
      ensures marks == if outcome == Updated then AdvanceMarks(old(marks), n) else old(marks)
      ensures outcome == Updated && !n.WorkerFence? && !n.EpochAdvance? ==>
              Elements(affected) == Collected(old(indexes), n)
    {
      hide Below, Elements, IndexAt;
      affected := [];
      NoElements();
      outcome := Updated;
      match n
      case PathAuthorityAdvance(v) =>
        outcome := AdvanceOutcome(marks.path, v);
        if outcome == Updated {
          affected := Collect(indexes.pathAuthority, v);
          marks := marks.(path := v);
        }
      case PolicyAdvance(v) =>
        outcome := AdvanceOutcome(marks.policy, v);
        if outcome == Updated {
          affected := Collect(indexes.policy, v);
          marks := marks.(policy := v);
        }
      case EvidenceAdvance(v) =>
        outcome := AdvanceOutcome(marks.evidence, v);
        if outcome == Updated {
          affected := Collect(indexes.evidence, v);
          marks := marks.(evidence := v);
        }
      case PlanAdvance(v) =>
        outcome := AdvanceOutcome(marks.plan, v);
        if outcome == Updated {
          marks := marks.(plan := v);
        }
      case EpochAdvance(v) =>
        if v == 0 || v <= marks.epoch {
          outcome := InvalidSourceGeneration;
        } else {
          marks := marks.(epoch := v);
        }
      case RouteAdvance =>
        outcome := MalformedRequest;
      case WorkerFence(p, b) =>
        if p == 0 || b == 0 {
          outcome := MalformedRequest;
        }
    }

    /** Re-evaluates what the notification made stale; a worker fence takes the boot down first. */
    method Propagate(n: Notification, stale: seq<nat>) returns (outcome: Outcome)
      requires Valid()
      requires !n.WorkerFence? && !n.EpochAdvance? ==> Elements(stale) == Collected(indexes, n)
      modifies this`publishers, Footprint()
      ensures Valid() && Footprint() == old(Footprint())
      ensures OpResult(View(), outcome) == Propagated(old(View()), n)
    {
      hide GraphClass.ProvenanceGraph.Valid, GraphClass.ProvenanceGraph.View, Valid, Lineages, Footprint, ObjectSound,
           RefreshOwned, Elements, IndexAt, Below, Sorted, Enumerates;
      NotMine();
      var affected := stale;
      if n.EpochAdvance? {
        affected := Sorted(indexes.owner.Keys);
        ElementsSorted(indexes.owner.Keys);
      } else if n.WorkerFence? {
        var key := (n.publisher, n.boot);
        if key !in publishers {
          return NodeNotFound;
        }
        publishers := Unlive(publishers, key);
        affected := Sorted(IndexAt(indexes.boot, n.boot));
        ElementsSorted(IndexAt(indexes.boot, n.boot));
      }
      ReevaluateIndex(affected);
      return Updated;
    }

    method Notify(n: Notification, a: Authority) returns (outcome: Outcome)
      requires Valid()
      modifies this`marks, this`publishers, Footprint()
      ensures Valid() && Footprint() == old(Footprint())
      ensures OpResult(View(), outcome) == Operations.Notify(old(View()), n, a)
    {
      hide GraphClass.ProvenanceGraph.Valid, GraphClass.ProvenanceGraph.View, Valid, Lineages, Footprint, ObjectSound,
        Operations.CheckAdministrator, Operations.Notify, Propagated, NotificationOutcome, Collected, AdvanceMarks,
        Next;
      NotMine();
      NotifyCases(View(), n, a);
      var checked := CheckAdministrator(a);
      NothingChanged();
      if checked != Ok {
        return checked;
      }
      var announced, affected := Announce(n);
      NothingChanged();
      if announced != Updated {
        return announced;
      }
      if Next(marks.store).None? {
        return ResourceLimit;
      }
      marks := marks.(store := marks.store + 1);
      outcome := Propagate(n, affected);
    }

    // -------------------------------------------------------------------------------------
    // Compaction
    // -------------------------------------------------------------------------------------

    /** Counts the lineage's records anew after a compaction run. */
    method Recount(lid: nat, count: nat, ghost s: Store, ghost done: Compaction)
      requires Valid() && lid in lineages && lid in s.lineages && done.count == count
      requires Lineages() == s.lineages[lid := s.lineages[lid].(graph := done.graph)]
      modifies lineages[lid]
      ensures Valid() && Footprint() == old(Footprint()) && unchanged(this)
      ensures Lineages() == s.lineages[lid := Recounted(s.lineages[lid], done)]
    {
      hide GraphClass.ProvenanceGraph.Valid, GraphClass.ProvenanceGraph.View, Valid, Lineages, Footprint, ObjectSound,
           HistoryRecords, LineageObject.SmallLineage;
      One(lid);
      var lin := lineages[lid];
      lin.graph.ViewIs();
      var history := lin.CountHistory();
      lin.state := lin.state.(
        nodeCount := |lin.graph.nodes|, edgeCount := |lin.graph.edges|,
        compactedCount := lin.state.compactedCount + count, historyCount := history);
      OneChanged(lid);
    }

    method AdvanceLineage(lid: nat)
      requires Valid() && lid in lineages
      modifies lineages[lid]
      ensures Valid() && Footprint() == old(Footprint()) && unchanged(this)
      ensures lid in old(Lineages())
      ensures
        var lin := old(Lineages())[lid];
        var st := lin.state.(lineageGeneration := lin.state.lineageGeneration + 1);
        Lineages() == old(Lineages())[lid := lin.(state := st)]
    {
      hide GraphClass.ProvenanceGraph.Valid, GraphClass.ProvenanceGraph.View, Valid, Lineages, Footprint, ObjectSound,
           LineageObject.SmallLineage;
      One(lid);
      lineages[lid].state := lineages[lid].state.(lineageGeneration := lineages[lid].state.lineageGeneration + 1);
      OneChanged(lid);
    }

    /** The counters and generations after a compaction run that nothing refused. */
    method Account(lid: nat, count: nat, ghost s: Store, ghost done: Compaction) returns (outcome: Outcome)
      requires Valid() && lid in lineages && lid in s.lineages && this !in Footprint()
      requires View() == WithLineage(s, lid, s.lineages[lid].(graph := done.graph))
      requires done.refused == Ok && done.count == count
      modifies this`marks, lineages[lid]
      ensures Valid() && Footprint() == old(Footprint())
      ensures OpResult(View(), outcome) == AfterCompaction(s, lid, done)
    {
      hide GraphClass.ProvenanceGraph.Valid, GraphClass.ProvenanceGraph.View, Valid, Lineages, Footprint, ObjectSound,
           Next, AfterCompaction, Recounted;
      AccountCases(s, lid, done);
      Recount(lid, count, s, done);
      One(lid);
      if count == 0 {
        return Ok;
      }
      if Next(lineages[lid].state.lineageGeneration).None? {
        return ResourceLimit;
      }
      AdvanceLineage(lid);
      if Next(marks.store).None? {
        return ResourceLimit;
      }
      marks := marks.(store := marks.store + 1);
      return Ok;
    }

    method Compact(lid: nat, a: Authority, options: CompactOptions) returns (outcome: Outcome)
      requires Valid()
      modifies this`marks, Footprint()
      ensures Valid() && Footprint() == old(Footprint())
      ensures OpResult(View(), outcome) == Operations.Compact(env, old(View()), lid, a, options)
    {
      hide GraphClass.ProvenanceGraph.Valid, GraphClass.ProvenanceGraph.View, Valid, Lineages, Footprint, ObjectSound,
           CompactLineage, AfterCompaction, LivenessOf;
      NotMine();
      LineageKeys();
      RoomyOf();
      if lid == 0 {
        return MalformedRequest;
      }
      if !a.HasIdentity() {
        return Unauthorized;
      }
      if marks.epoch == 0 || a.epoch != marks.epoch {
        return StaleEpochOutcome;
      }
      if LivenessOf(publishers, (a.publisher, a.boot)) != Live {
        return StaleWorker;
      }
      if lid !in lineages {
        return LineageNotFound;
      }
      One(lid);
      ghost var s := View();
      var lin := lineages[lid];
      if !a.scope.Permits(lid, lin.state.key.route) {
        return Unauthorized;
      }
      var count, refused := lin.Compact(env, a, options);
      ghost var done := Compaction(lin.graph.View(), count, refused);
      OneChanged(lid);
      if refused != Ok {
        Refused(s, lid, done);
        return refused;
      }
      One(lid);
      outcome := Account(lid, count, s, done);
    }

    // -------------------------------------------------------------------------------------
    // Two-phase sessions
    // -------------------------------------------------------------------------------------

    method BeginPublication(r: Request) returns (snapshot: DependencySnapshot)
      requires Valid()
      ensures snapshot == Operations.BeginPublication(env, View(), r)
    {
      hide GraphClass.ProvenanceGraph.Valid, GraphClass.ProvenanceGraph.View, Valid, Lineages, Footprint, ObjectSound;
      LineageKeys();
      var lid := env.lineageIdOf(r.key);
      snapshot := DependencySnapshot(marks, 0, 0);
      if lid in lineages {
        One(lid);
        snapshot := snapshot.(lineageGeneration := lineages[lid].state.lineageGeneration,
                              routeGeneration := lineages[lid].state.generation);
      }
    }

    method CheckSession(snapshot: DependencySnapshot, r: Request) returns (o: Outcome)
      requires Valid()
      ensures o == Operations.CheckSession(env, View(), snapshot, r)
    {
      hide GraphClass.ProvenanceGraph.Valid, GraphClass.ProvenanceGraph.View, Valid, Lineages, Footprint, ObjectSound;
      LineageKeys();
      var lid := env.lineageIdOf(r.key);
      if lid in lineages {
        One(lid);
        if r.kind == RouteStateKind && lineages[lid].state.generation != snapshot.routeGeneration {
          return StaleRouteOutcome;
        }
      } else if snapshot.lineageGeneration != 0 {
        return StaleLineageGeneration;
      }
      if marks.path != snapshot.marks.path {
        return StalePathOutcome;
      }
      if marks.policy != snapshot.marks.policy {
        return StalePolicyOutcome;
      }
      if marks.evidence != snapshot.marks.evidence {
        return StaleEvidenceOutcome;
      }
      if marks.plan != snapshot.marks.plan {
        return StalePlan;
      }
      if lid in lineages && lineages[lid].state.lineageGeneration != snapshot.lineageGeneration {
        return StaleLineageGeneration;
      }
      if marks.epoch != snapshot.marks.epoch {
        return StaleEpochOutcome;
      }
      if marks.store != snapshot.marks.store {
        return StaleStoreGeneration;
      }
      return Ok;
    }

    method CommitSession(snapshot: DependencySnapshot, r: Request)
      returns (outcome: Outcome, publication: Option<Publication>)
      requires Valid()
      modifies this, Footprint()
      ensures Valid() && fresh(Footprint() - old(Footprint()))
      ensures CommitResult(View(), outcome, publication) == Operations.CommitSession(env, old(View()), snapshot, r)
    {
      hide GraphClass.ProvenanceGraph.Valid, GraphClass.ProvenanceGraph.View, Valid, Lineages, ObjectSound,
           Operations.CheckSession, CommitPipeline.Commit;
      var checked := CheckSession(snapshot, r);
      NothingChanged();
      if checked != Ok {
        return checked, None;
      }
      outcome, publication := Commit(r);
    }

    // -------------------------------------------------------------------------------------
    // Load
    // -------------------------------------------------------------------------------------

    method IndexRecordsOf(lid: nat)
      requires lid in lineages
      modifies this`indexes
      ensures indexes == IndexRecords(old(indexes), InOrder(lineages[lid].graph.nodes), lid)
    {
      hide IndexNode, InOrder, Valid;
      var nodes := InOrder(lineages[lid].graph.nodes);
      assert nodes[0..] == nodes;
      var i := 0;
      while i < |nodes|
        invariant 0 <= i <= |nodes|
        invariant IndexRecords(indexes, nodes[i..], lid) == IndexRecords(old(indexes), nodes, lid)
      {
        IndexRecordsStep(indexes, nodes, i, lid);
        IndexRecord(nodes[i], lid);
        i := i + 1;
      }
    }

    /** Rebuilds every reverse index from the records. */
    method IndexAll()
      requires Valid()
      modifies this`indexes
      ensures Valid() && Footprint() == old(Footprint())
      ensures indexes == IndexLineages(EMPTY_INDEXES, Lineages(), Sorted(Lineages().Keys))
    {
      hide GraphClass.ProvenanceGraph.Valid, GraphClass.ProvenanceGraph.View, Valid, Lineages, Footprint, ObjectSound,
           IndexRecords, Sorted, Enumerates, InOrder, Elements, IndexLineages;
      NotMine();
      LineageKeys();
      indexes := EMPTY_INDEXES;
      var ids := Sorted(lineages.Keys);
      ghost var values := Lineages();
      IndexLineagesStart(values);
      var i := 0;
      while i < |ids|
        invariant 0 <= i <= |ids| && Valid() && Lineages() == values && Footprint() == old(Footprint())
        invariant IndexLineages(indexes, values, ids[i..]) == IndexLineages(EMPTY_INDEXES, values, ids)
      {
        label Round:
        IndexLineagesStep(indexes, values, ids, i);
        One(ids[i]);
        lineages[ids[i]].graph.ViewIs();
        IndexRecordsOf(ids[i]);
        NothingChanged@Round();
        i := i + 1;
      }
      IndexDone(indexes, values, ids[i..]);
    }

    method ReevaluateEverything()
      requires Valid() && publishers == map[]
      modifies Footprint()
      ensures Valid() && unchanged(this) && Footprint() == old(Footprint())
      ensures Lineages() == ReevaluatedSome(old(Lineages()), marks, old(Lineages()).Keys)
    {
      hide GraphClass.ProvenanceGraph.Valid, GraphClass.ProvenanceGraph.View, Valid, Lineages, Footprint, ObjectSound,
           Sorted, Enumerates, Elements, ReevaluatedSome, Refresh;
      NotMine();
      LineageKeys();
      var ids := Sorted(lineages.Keys);
      ghost var values := Lineages();
      IndexLineagesStart(values);
      ReevaluatedEnds(values, marks);
      var i := 0;
      while i < |ids|
        invariant 0 <= i <= |ids| && Valid() && unchanged(this) && Footprint() == old(Footprint())
        invariant Lineages() == ReevaluatedSome(values, marks, Elements(ids[..i]))
      {
        label Round:
        var lid := ids[i];
        ReevaluatedStep(values, marks, Elements(ids[..i]), lid);
        ElementsPrefix(ids, i);
        One(lid);
        var lin := lineages[lid];
        lin.graph.ViewIs();
        lin.ReevaluateAll(marks, publishers);
        OneChanged@Round(lid);
        i := i + 1;
      }
    }

    /** Freshly loaded objects replace the store's own. */
    /** The loaded objects become the store's, with their indexes rebuilt. */
    method Install(loaded: map<nat, LineageObject>, routes: map<nat, nat>, announced: Watermarks)
      requires Roomy(env.limits)
      requires forall id :: id in loaded ==>
                 loaded[id].graph.Valid() && loaded[id].SmallLineage(env.limits) && loaded[id].state.id == id
      requires forall a, b :: a in loaded && b in loaded && a != b ==>
                 loaded[a] != loaded[b] && loaded[a].graph != loaded[b].graph
      modifies this
      ensures Valid() && lineages == loaded && Lineages() == old(Values(loaded))
      ensures routeIndex == routes && marks == announced && publishers == map[] && recovered
      ensures indexes == IndexLineages(EMPTY_INDEXES, old(Values(loaded)), Sorted(old(Values(loaded)).Keys))
      ensures epochBootstrapped == old(epochBootstrapped)
    {
      hide GraphClass.ProvenanceGraph.Valid, GraphClass.ProvenanceGraph.View, Valid, Lineages, ObjectSound,
           IndexLineages, Sorted, Enumerates, Values;
      lineages, routeIndex, marks, publishers, recovered := loaded, routes, announced, map[], true;
      ValuesKept(loaded);
      Installed(loaded);
      IndexAll();
    }

    method Adopt(loaded: map<nat, LineageObject>, routes: map<nat, nat>, announced: Watermarks)
      requires Roomy(env.limits)
      requires forall id :: id in loaded ==>
                 loaded[id].graph.Valid() && loaded[id].SmallLineage(env.limits) && loaded[id].state.id == id
      requires forall a, b :: a in loaded && b in loaded && a != b ==>
                 loaded[a] != loaded[b] && loaded[a].graph != loaded[b].graph
      modifies this, set id | id in loaded :: loaded[id], set id | id in loaded :: loaded[id].graph
      ensures Valid() && Footprint() == (set id | id in loaded :: loaded[id] as object) +
              (set id | id in loaded :: loaded[id].graph as object)
      ensures View() == Store(ReevaluatedSome(old(Values(loaded)), announced, old(Values(loaded)).Keys), routes,
                              IndexLineages(EMPTY_INDEXES, old(Values(loaded)), Sorted(old(Values(loaded)).Keys)),
                                announced,
                              map[], true, old(epochBootstrapped))
    {
      hide GraphClass.ProvenanceGraph.Valid, GraphClass.ProvenanceGraph.View, Valid, Lineages, ObjectSound,
           IndexLineages, ReevaluatedSome, Sorted, Enumerates, Values;
      Install(loaded, routes, announced);
      NotMine();
      ReevaluateEverything();
    }

    /** The in-memory part of load: nothing of the present store survives but the bootstrap flag. */
    method Load(image: StoreImage) returns (outcome: Outcome)
      requires Valid()
      modifies this
      ensures Valid() && fresh(Footprint() - old(Footprint()))
      ensures outcome == Updated || (outcome == StoreCorrupt && View() == old(View()))
      ensures Images.Load(old(View()), image, env.limits) ==
              if outcome == Updated then Success(View()) else Failure(StoreCorrupt)
    {
      hide GraphClass.ProvenanceGraph.Valid, GraphClass.ProvenanceGraph.View, Valid, Lineages, ObjectSound,
        LoadLineages, IndexLineages, ReevaluatedSome, Images.Load, Sorted, Enumerates, Values,
        LineageObject.SmallLineage;
      RoomyOf();
      LoadIs(View(), image, env.limits);
      var loaded, routes, ok := LoadObjects(image.lineages, env.limits);
      if !ok {
        NothingChanged();
        return StoreCorrupt;
      }
      Adopt(loaded, routes, image.marks);
      return Updated;
    }
  }

  lemma IndexDone(x: Indexes, lineages: map<nat, Lineage>, ids: seq<nat>)
    requires ids == []
    ensures IndexLineages(x, lineages, ids) == x
  {
  }

  ghost function Values(m: map<nat, LineageObject>): map<nat, Lineage>
    reads set id | id in m :: m[id], set id | id in m :: m[id].graph
  {
    map id | id in m :: m[id].View()
  }

  twostate lemma ValuesKept(m: map<nat, LineageObject>)
    requires forall id :: id in m ==> unchanged(m[id]) && unchanged(m[id].graph)
    ensures Values(m) == old(Values(m))
  {
    hide GraphClass.ProvenanceGraph.View;
  }

  /** Rebuilds every stored lineage; refuses repeated lineages and repeated routes. */
  method LoadObjects(stored: seq<StoredLineage>, limits: Limits)
    returns (loaded: map<nat, LineageObject>, routes: map<nat, nat>, ok: bool)
    requires limits.maxNodes <= limits.maxVisited
    ensures forall id :: id in loaded ==>
              && fresh(loaded[id]) && fresh(loaded[id].graph) && loaded[id].graph.Valid() &&
                 loaded[id].SmallLineage(limits)
              && loaded[id].state.id == id
    ensures forall a, b :: a in loaded && b in loaded && a != b ==>
              loaded[a] != loaded[b] && loaded[a].graph != loaded[b].graph
    ensures LoadLineages(Loaded(map[], map[]), stored, limits) ==
            if ok then Success(Loaded(Values(loaded), routes)) else Failure(StoreCorrupt)
  {
    hide GraphClass.ProvenanceGraph.Valid, LoadLineage, LoadLineages, GraphClass.ProvenanceGraph.View;
    loaded, routes, ok := map[], map[], true;
    assert stored[0..] == stored && Values(loaded) == map[];
    var i := 0;
    while i < |stored|
      invariant 0 <= i <= |stored| && ok
      invariant forall id :: id in loaded ==>
                  && fresh(loaded[id]) && fresh(loaded[id].graph) && loaded[id].graph.Valid() &&
                     loaded[id].SmallLineage(limits)
                  && loaded[id].state.id == id
      invariant forall a, b :: a in loaded && b in loaded && a != b ==>
                  loaded[a] != loaded[b] && loaded[a].graph != loaded[b].graph
      invariant LoadLineages(Loaded(Values(loaded), routes), stored[i..], limits) ==
                LoadLineages(Loaded(map[], map[]), stored, limits)
    {
      label Round:
      LoadLineagesStep(Loaded(Values(loaded), routes), stored, i, limits);
      var lin := LoadLineageObject(stored[i], limits);
      ValuesKept@Round(loaded);
      var st := stored[i].state;
      if lin.None? || st.id in loaded || st.key.route in routes {
        return loaded, routes, false;
      }
      assert Values(loaded[st.id := lin.value]) == Values(loaded)[st.id := lin.value.View()];
      loaded, routes := loaded[st.id := lin.value], routes[st.key.route := st.id];
      i := i + 1;
    }
    LoadedAll(Loaded(Values(loaded), routes), stored[i..], limits);
  }

  lemma LoadedAll(done: Loaded, stored: seq<StoredLineage>, limits: Limits)
    requires stored == []
    ensures LoadLineages(done, stored, limits) == Success(done)
  {
  }
}
