// What one round of each loop of the store's operations contributes to the value the operation
// is specified by: re-evaluation by owner, fencing, collecting below a watermark.
module StoreLoops {
  import opened Types
  import opened Ordering
  import opened Digraph
  import opened GraphModel
  import opened StoreTypes
  import opened CurrentnessModel
  import opened CommitPipeline
  import opened Operations
  import opened LineageObjects
  import opened Images

  // ---------------------------------------------------------------------------------------
  // Re-evaluation by owner
  // ---------------------------------------------------------------------------------------

  /** The listed records that a lineage owns. */
  function OwnedBy(owner: map<nat, nat>, ids: set<nat>, lid: nat): set<nat> {
    set id | id in ids && id in owner && owner[id] == lid
  }

  ghost predicate Groups(owner: map<nat, nat>, ids: set<nat>, grouped: map<nat, seq<nat>>) {
    forall lid :: (if lid in grouped then Elements(grouped[lid]) else {}) == OwnedBy(owner, ids, lid)
  }

  lemma GroupNothing(owner: map<nat, nat>)
    ensures Groups(owner, {}, map[])
  {
  }

  lemma GroupUnowned(owner: map<nat, nat>, ids: set<nat>, grouped: map<nat, seq<nat>>, id: nat)
    requires Groups(owner, ids, grouped) && id !in owner
    ensures Groups(owner, ids + {id}, grouped)
  {
    forall lid ensures OwnedBy(owner, ids + {id}, lid) == OwnedBy(owner, ids, lid) {
    }
  }

  lemma GroupOwned(owner: map<nat, nat>, ids: set<nat>, grouped: map<nat, seq<nat>>, id: nat)
    requires Groups(owner, ids, grouped) && id in owner
    ensures
      var o := owner[id];
      Groups(owner, ids + {id}, grouped[o := (if o in grouped then grouped[o] else []) + [id]])
  {
    var o := owner[id];
    var more := grouped[o := (if o in grouped then grouped[o] else []) + [id]];
    forall lid ensures (if lid in more then Elements(more[lid]) else {}) == OwnedBy(owner, ids + {id}, lid) {
      assert OwnedBy(owner, ids + {id}, lid) == OwnedBy(owner, ids, lid) + if lid == o then {id} else {};
    }
  }

  function RefreshLineage(s: Store, ids: set<nat>, lid: nat): Lineage
    requires lid in s.lineages
  {
    var lin := s.lineages[lid];
    lin.(graph := Refresh(lin.state, lin.graph, s.marks, s.publishers, OwnedBy(s.indexes.owner, ids, lid)))
  }

  /** The lineages once the listed owners are re-evaluated. */
  function RefreshSome(s: Store, ids: set<nat>, owners: set<nat>): map<nat, Lineage> {
    map lid | lid in s.lineages :: if lid in owners then RefreshLineage(s, ids, lid) else s.lineages[lid]
  }

  lemma RefreshSomeNothing(s: Store, ids: set<nat>)
    ensures RefreshSome(s, ids, {}) == s.lineages
  {
    hide RefreshLineage;
  }

  lemma RefreshSomeStep(s: Store, ids: set<nat>, owners: set<nat>, lid: nat)
    ensures
      RefreshSome(s, ids, owners + {lid}) ==
      if lid in s.lineages then RefreshSome(s, ids, owners)[lid := RefreshLineage(s, ids, lid)]
      else RefreshSome(s, ids, owners)
  {
    hide RefreshLineage;
  }

  function RefreshedLineage(lin: Lineage, marks: Watermarks, publishers: Registry, ids: set<nat>): Lineage {
    lin.(graph := Refresh(lin.state, lin.graph, marks, publishers, ids))
  }

  function RegroupedOne(lineages: map<nat, Lineage>, lid: nat, marks: Watermarks, publishers: Registry,
                        ids: set<nat>): map<nat, Lineage> {
    if lid in lineages then lineages[lid := RefreshedLineage(lineages[lid], marks, publishers, ids)] else lineages
  }

  /** Re-evaluating the group of the next owner. */
  lemma RegroupStep(s: Store, ids: set<nat>, grouped: map<nat, seq<nat>>, i: nat)
    requires Groups(s.indexes.owner, ids, grouped) && i < |Sorted(grouped.Keys)| && Sorted(grouped.Keys)[i] in grouped
    ensures
      var owners := Sorted(grouped.Keys);
      RefreshSome(s, ids, Elements(owners[..i + 1])) ==
      RegroupedOne(RefreshSome(s, ids, Elements(owners[..i])), owners[i], s.marks, s.publishers,
        Elements(grouped[owners[i]]))
  {
    hide Refresh;
    var owners := Sorted(grouped.Keys);
    var lid := owners[i];
    RefreshSomeStep(s, ids, Elements(owners[..i]), lid);
    ElementsPrefix(owners, i);
    assert lid !in owners[..i];
    assert Elements(grouped[lid]) == OwnedBy(s.indexes.owner, ids, lid);
  }

  lemma RefreshSomeAll(s: Store, ids: set<nat>, grouped: map<nat, seq<nat>>)
    requires Groups(s.indexes.owner, ids, grouped)
    ensures s.(lineages := RefreshSome(s, ids, grouped.Keys)) == RefreshOwned(s, ids)
  {
    hide Refresh;
    forall lid | lid in s.lineages
      ensures RefreshSome(s, ids, grouped.Keys)[lid] == RefreshOwned(s, ids).lineages[lid]
    {
      var lin := s.lineages[lid];
      if lid !in grouped {
        assert OwnedBy(s.indexes.owner, ids, lid) == {};
        RefreshNothing(lin.state, lin.graph, s.marks, s.publishers);
      }
    }
  }

  lemma RefreshOwnedIs(s: Store, ids: set<nat>, lid: nat)
    requires lid in s.lineages
    ensures RefreshOwned(s, ids).lineages[lid] == RefreshLineage(s, ids, lid)
  {
    hide Refresh;
    assert (set id | id in ids && id in s.indexes.owner && s.indexes.owner[id] == lid) ==
           OwnedBy(s.indexes.owner, ids, lid);
  }

  lemma RefreshOwnedNothing(s: Store)
    ensures RefreshOwned(s, {}) == s
  {
    hide Refresh;
    forall lid | lid in s.lineages ensures RefreshOwned(s, {}).lineages[lid] == s.lineages[lid] {
      var lin := s.lineages[lid];
      RefreshOwnedIs(s, {}, lid);
      assert OwnedBy(s.indexes.owner, {}, lid) == {};
      RefreshNothing(lin.state, lin.graph, s.marks, s.publishers);
    }
    assert RefreshOwned(s, {}).lineages == s.lineages;
  }

  lemma RefreshOwnedTwice(s: Store, a: set<nat>, b: set<nat>)
    ensures RefreshOwned(RefreshOwned(s, a), b) == RefreshOwned(s, a + b)
  {
    hide Refresh;
    var t := RefreshOwned(s, a);
    forall lid | lid in s.lineages
      ensures RefreshOwned(t, b).lineages[lid] == RefreshOwned(s, a + b).lineages[lid]
    {
      var lin := s.lineages[lid];
      RefreshOwnedIs(s, a, lid);
      RefreshOwnedIs(t, b, lid);
      RefreshOwnedIs(s, a + b, lid);
      assert OwnedBy(s.indexes.owner, a + b, lid) == OwnedBy(s.indexes.owner, a, lid) +
             OwnedBy(s.indexes.owner, b, lid);
      RefreshTwice(lin.state, lin.graph, s.marks, s.publishers, OwnedBy(s.indexes.owner, a, lid),
        OwnedBy(s.indexes.owner, b, lid));
    }
    assert RefreshOwned(t, b).lineages == RefreshOwned(s, a + b).lineages;
  }

  // ---------------------------------------------------------------------------------------
  // Fencing
  // ---------------------------------------------------------------------------------------

  predicate OtherLive(publishers: Registry, publisher: nat, boot: nat, k: PublisherKey) {
    k in publishers && k.0 == publisher && k.1 != boot && publishers[k].live
  }

  /** The boots to fence among the keys already looked at. */
  function OthersAmong(publishers: Registry, publisher: nat, boot: nat, keys: seq<Pair>): set<PublisherKey> {
    set k | k in keys && OtherLive(publishers, publisher, boot, k)
  }

  function BootsOf(keys: set<PublisherKey>): set<nat> {
    set k | k in keys :: k.1
  }

  lemma FenceStep(publishers: Registry, publisher: nat, boot: nat, keys: seq<Pair>, i: nat)
    requires i < |keys| && keys[i] in publishers && keys[i] !in keys[..i]
    ensures
      var k := keys[i];
      var before := FenceAll(publishers, OthersAmong(publishers, publisher, boot, keys[..i]));
      var after := FenceAll(publishers, OthersAmong(publishers, publisher, boot, keys[..i + 1]));
      && k in before && before[k] == publishers[k]
      && after == (if OtherLive(publishers, publisher, boot, k)
                   then before[k := publishers[k].(live := false, fenced := true)] else before)
      && BootsOf(OthersAmong(publishers, publisher, boot, keys[..i + 1])) ==
         BootsOf(OthersAmong(publishers, publisher, boot, keys[..i])) +
         if OtherLive(publishers, publisher, boot, k) then {k.1} else {}
  {
    var k := keys[i];
    assert keys[..i + 1] == keys[..i] + [k];
    var before := OthersAmong(publishers, publisher, boot, keys[..i]);
    assert OthersAmong(publishers, publisher, boot, keys[..i + 1]) ==
           before + if OtherLive(publishers, publisher, boot, k) then {k} else {};
  }

  /** The registry's keys are listed once each. */
  lemma KeysListed(publishers: Registry, i: nat)
    requires i < |SortedPairs(publishers.Keys)|
    ensures SortedPairs(publishers.Keys)[i] in publishers
    ensures SortedPairs(publishers.Keys)[i] !in SortedPairs(publishers.Keys)[..i]
  {
    hide SortedPairs;
    var keys := SortedPairs(publishers.Keys);
    SortedPairsAll(publishers.Keys);
    forall j | 0 <= j < i ensures keys[j] != keys[i] {
      assert Before(keys[j], keys[i]);
    }
  }

  lemma FenceNothing(publishers: Registry, publisher: nat, boot: nat)
    ensures FenceAll(publishers, OthersAmong(publishers, publisher, boot, [])) == publishers
    ensures BootsOf(OthersAmong(publishers, publisher, boot, [])) == {}
  {
  }

  lemma OthersAmongAll(publishers: Registry, publisher: nat, boot: nat)
    ensures OthersAmong(publishers, publisher, boot, SortedPairs(publishers.Keys)) ==
            OtherLiveBoots(publishers, publisher, boot)
  {
    hide SortedPairs;
  }

  /** The records of the listed boots. */
  function NodesOfBoots(x: Indexes, boots: set<nat>): set<nat> {
    set b, id | b in boots && id in IndexAt(x.boot, b) :: id
  }

  lemma NodesOfBootsStep(x: Indexes, boots: set<nat>, b: nat)
    ensures NodesOfBoots(x, boots + {b}) == NodesOfBoots(x, boots) + IndexAt(x.boot, b)
  {
    hide IndexAt;
  }

  lemma NoBoots(x: Indexes)
    ensures NodesOfBoots(x, {}) == {}
  {
  }

  lemma OneBoot(key: PublisherKey)
    ensures BootsOf({key}) == Elements([key.1])
  {
    assert key in {key};
  }

  lemma NoElements()
    ensures Elements([]) == {}
  {
  }

  lemma ElementsJoin(a: seq<nat>, b: seq<nat>)
    ensures Elements(a + b) == Elements(a) + Elements(b)
  {
  }

  lemma BootNodesAre(x: Indexes, keys: set<PublisherKey>)
    ensures BootNodes(x, keys) == NodesOfBoots(x, BootsOf(keys))
  {
    hide IndexAt;
    forall id | id in NodesOfBoots(x, BootsOf(keys)) ensures id in BootNodes(x, keys) {
      var b :| b in BootsOf(keys) && id in IndexAt(x.boot, b);
      var k :| k in keys && k.1 == b;
      assert id in IndexAt(x.boot, k.1);
    }
    forall id | id in BootNodes(x, keys) ensures id in NodesOfBoots(x, BootsOf(keys)) {
      var k :| k in keys && id in IndexAt(x.boot, k.1);
      assert k.1 in BootsOf(keys);
    }
  }

  lemma FenceOne(publishers: Registry, key: PublisherKey)
    requires key in publishers
    ensures FenceAll(publishers, {key}) == publishers[key := publishers[key].(live := false, fenced := true)]
  {
  }

  // ---------------------------------------------------------------------------------------
  // Collecting below a watermark
  // ---------------------------------------------------------------------------------------

  /** What the first keys of an index contribute. */
  function Under(index: ReverseIndex, keys: seq<nat>): set<nat> {
    set k, id | k in keys && k in index && id in index[k] :: id
  }

  lemma UnderStep(index: ReverseIndex, keys: seq<nat>, i: nat)
    requires i < |keys| && keys[i] in index
    ensures Under(index, keys[..i + 1]) == Under(index, keys[..i]) + index[keys[i]]
  {
    assert keys[..i + 1] == keys[..i] + [keys[i]];
    forall id | id in index[keys[i]] ensures id in Under(index, keys[..i + 1]) {
      assert keys[i] in keys[..i + 1];
    }
  }

  lemma UnderStart(index: ReverseIndex)
    ensures
      var keys := Sorted(index.Keys);
      && (forall i :: 0 <= i < |keys| ==> keys[i] in index)
      && Under(index, keys[..0]) == {} && keys[..|keys|] == keys
  {
    hide Sorted;
    SortedAll(index.Keys);
  }

  /** The keys are ascending, so the walk may stop at the first one that is not below. */
  lemma UnderIsBelow(index: ReverseIndex, value: nat, i: nat)
    requires i <= |Sorted(index.Keys)|
    requires forall j :: 0 <= j < i ==> Sorted(index.Keys)[j] < value
    requires i < |Sorted(index.Keys)| ==> Sorted(index.Keys)[i] >= value
    ensures Under(index, Sorted(index.Keys)[..i]) == Below(index, value)
  {
    hide Sorted, Below, Under;
    PrefixIsBelow(Sorted(index.Keys), index.Keys, value, i);
    UnderOfBelow(index, value, Sorted(index.Keys)[..i]);
  }

  lemma PrefixIsBelow(keys: seq<nat>, s: set<nat>, value: nat, i: nat)
    requires Enumerates(keys, s) && i <= |keys| && (forall j :: 0 <= j < i ==> keys[j] < value)
    requires i < |keys| ==> keys[i] >= value
    ensures forall k :: k in keys[..i] <==> k in s && k < value
  {
    forall k | k in s && k < value ensures k in keys[..i] {
      var j := PositionOf(s, keys, k);
    }
    forall k | k in keys[..i] ensures k in s {
      assert k in keys;
    }
  }

  lemma UnderOfBelow(index: ReverseIndex, value: nat, keys: seq<nat>)
    requires forall k :: k in keys <==> k in index.Keys && k < value
    ensures Under(index, keys) == Below(index, value)
  {
  }

  // ---------------------------------------------------------------------------------------
  // Notifications
  // ---------------------------------------------------------------------------------------

  /** What follows an accepted announcement. */
  function Propagated(s: Store, n: Notification): OpResult {
    if n.WorkerFence? && (n.publisher, n.boot) !in s.publishers then OpResult(s, NodeNotFound)
    else
      var down := if n.WorkerFence? then s.(publishers := Unlive(s.publishers, (n.publisher, n.boot))) else s;
      OpResult(RefreshOwned(down, Collected(down.indexes, n)), Updated)
  }

  lemma NotifyCases(s: Store, n: Notification, a: Authority)
    ensures
      var marked := s.(marks := AdvanceMarks(s.marks, n));
      && marked.marks.store == s.marks.store
      && Notify(s, n, a) ==
         if CheckAdministrator(s, a) != Ok then OpResult(s, CheckAdministrator(s, a))
         else if NotificationOutcome(s, n) != Updated then OpResult(s, NotificationOutcome(s, n))
         else if Next(s.marks.store).None? then OpResult(marked, ResourceLimit)
         else Propagated(marked.(marks := marked.marks.(store := s.marks.store + 1)), n)
  {
    hide CheckAdministrator, RefreshOwned, Collected, NotificationOutcome;
  }

  // ---------------------------------------------------------------------------------------
  // Load
  // ---------------------------------------------------------------------------------------

  lemma LoadLineagesStep(done: Loaded, stored: seq<StoredLineage>, i: nat, limits: Limits)
    requires i < |stored|
    ensures
      LoadLineages(done, stored[i..], limits) ==
      match LoadLineage(stored[i], limits)
      case Failure(o) => Failure(o)
      case Success(lin) =>
        var st := stored[i].state;
        if st.id in done.lineages || st.key.route in done.routes then Failure(StoreCorrupt)
        else LoadLineages(Loaded(done.lineages[st.id := lin], done.routes[st.key.route := st.id]), stored[i + 1..],
          limits)
  {
    hide LoadLineage;
    assert stored[i..][1..] == stored[i + 1..] && stored[i..][0] == stored[i];
  }

  lemma IndexRecordsStep(x: Indexes, nodes: seq<Node>, i: nat, lid: nat)
    requires i < |nodes|
    ensures IndexRecords(x, nodes[i..], lid) == IndexRecords(IndexNode(x, nodes[i], lid), nodes[i + 1..], lid)
  {
    hide IndexNode;
    assert nodes[i..][1..] == nodes[i + 1..] && nodes[i..][0] == nodes[i];
  }

  lemma IndexLineagesStep(x: Indexes, lineages: map<nat, Lineage>, ids: seq<nat>, i: nat)
    requires i < |ids| && ids[i] in lineages
    ensures IndexLineages(x, lineages, ids[i..]) ==
            IndexLineages(IndexRecords(x, InOrder(lineages[ids[i]].graph.nodes), ids[i]), lineages, ids[i + 1..])
  {
    hide IndexRecords, InOrder;
    assert ids[i..][1..] == ids[i + 1..] && ids[i..][0] == ids[i];
  }

  lemma AscendingFresh(ids: seq<nat>, i: nat)
    requires Ascending(ids) && i < |ids|
    ensures ids[i] !in Elements(ids[..i])
  {
  }

  lemma IndexLineagesStart(lineages: map<nat, Lineage>)
    ensures
      var ids := Sorted(lineages.Keys);
      && ids[0..] == ids && ids[|ids|..] == []
      && (forall i :: 0 <= i < |ids| ==> ids[i] in lineages && ids[i] !in Elements(ids[..i]))
      && Elements(ids) == lineages.Keys && ids[..|ids|] == ids && Elements(ids[..0]) == {}
  {
    hide Sorted, Elements;
    var ids := Sorted(lineages.Keys);
    SortedAll(lineages.Keys);
    ElementsSorted(lineages.Keys);
    ElementsAll(ids);
    forall i | 0 <= i < |ids| ensures ids[i] !in Elements(ids[..i]) {
      AscendingFresh(ids, i);
    }
  }

  /** The lineages once the listed ones are fully re-evaluated. */
  function ReevaluatedSome(lineages: map<nat, Lineage>, marks: Watermarks, done: set<nat>): map<nat, Lineage> {
    map lid | lid in lineages :: if lid in done then ReevaluateAll(lineages[lid], marks) else lineages[lid]
  }

  lemma ReevaluatedStep(lineages: map<nat, Lineage>, marks: Watermarks, done: set<nat>, lid: nat)
    requires lid in lineages && lid !in done
    ensures ReevaluatedSome(lineages, marks, done)[lid] == lineages[lid]
    ensures ReevaluatedSome(lineages, marks, done + {lid}) ==
            ReevaluatedSome(lineages, marks, done)[lid := ReevaluateAll(lineages[lid], marks)]
  {
    hide ReevaluateAll;
  }

  lemma ReevaluatedEnds(lineages: map<nat, Lineage>, marks: Watermarks)
    ensures ReevaluatedSome(lineages, marks, {}) == lineages
    ensures ReevaluatedSome(lineages, marks, lineages.Keys) == map lid | lid in lineages ::
            ReevaluateAll(lineages[lid], marks)
  {
    hide ReevaluateAll;
  }

  lemma LoadIs(s: Store, image: StoreImage, limits: Limits)
    ensures
      Load(s, image, limits) ==
      match LoadLineages(Loaded(map[], map[]), image.lineages, limits)
      case Failure(o) => Failure(o)
      case Success(loaded) =>
        Success(Store(
          ReevaluatedSome(loaded.lineages, image.marks, loaded.lineages.Keys), loaded.routes,
          IndexLineages(EMPTY_INDEXES, loaded.lineages, Sorted(loaded.lineages.Keys)), image.marks, map[], true,
          s.epochBootstrapped))
  {
    hide LoadLineages, ReevaluateAll, IndexLineages, Sorted;
    var loaded := LoadLineages(Loaded(map[], map[]), image.lineages, limits);
    if loaded.Success? {
      ReevaluatedEnds(loaded.value.lineages, image.marks);
    }
  }
}
