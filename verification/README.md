# A verified model of the route provenance store

The store keeps, for every route, a lineage: a bounded typed DAG of immutable provenance records with mutable state, a ledger of publication attempts and a current record. This project models that store as one state machine, with the two encodings it rests on, and proves properties of every run of it.

How the files are laid out:

- `Types`, `Ordering`, `Digraph` — records, edges, outcomes; ordered enumerations; reachability, acyclicity, balls, topological orders.
- `GraphModel`, `Kahn`, `Bfs`, `ProvenanceGraph` — the graph as a value, and the class whose five maps the program mutates, with its cycle check, traversal and Kahn order proved against that value.
- `StoreTypes`, `Currentness`, `Requests`, `Commit`, `Operations`, `Images` — the store as a value: the fourteen-stage pipeline over nine request kinds, registry, notifications, compaction, sessions, export and load. Nothing is proved here but what the definitions need and where a commit can stop.
- `LineageObject`, `StoreLoops`, `ProvenanceStore` — the store as objects mutated in place. Every public operation is proved to do to the objects what the function of the same name does to the value; the theorems below are about those functions.
- `Soundness`, `Admission`, `Insertion`, `Evolution`, `Rebinding`, `Settlement`, `Transition`, `LineageStep`, `CommitStep`, `CommitCache`, `CommitInvariant`, `RegistryStep`, `CompactStep` — what one operation keeps. `Structure` — what any additions to a graph leave.
- `Growth`, `Progress`, `Registry` — what every run of any callers keeps, with no assumption.
- `Runs`, `Attempts`, `Sessions`, `Ancestry`, `Recovery` — what every run keeps whose callers respect what the store does not check.
- `Origins`, `BootIndex`, `Announcements` — what the reverse indexes hold in every run, and exactly when a registration or an announcement that relies on them keeps the cache.
- `Acceptance`, `Scenes`, `Submissions`, `Aftermath`, `SampleRuns`, `BreakingRuns` — runs that exist: one that exercises every assumption, and one to each store in which something fails.
- `Bytes`, `Evidence`, `Codec`, `ImageCodec`, `Persistence`, `Streams`, `CodecStreams`, `ImageStreams` — the store image, as functions with round trips and as loops over a writer and a reader.
- `Canonical`, `CanonicalEncoder`, `FieldBag`, `WireBindings`, `Frames`, `Sha256` — the canonical field encoding, the field bag, the frame layer and the streaming hash.

## Conventions and assumptions

- Identities, generations and digests are natural numbers. The 64-bit boundary is explicit where the code checks it: a generation advance fails there, and every codec field has its width.
- `Env` holds the limits and the identity functions. `Env.CollisionFree` says they are injective on content and never zero; the content types are countable, so such functions exist. A record's 64-bit identity and its 256-bit core digest are one function here.
- The clock-free calls of the public interface are the operations; each is one atomic step. A digest or hash function that a theorem does not look into is a parameter.
- What the code does not enforce of its callers is a run assumption, in the exact form the proofs need, and only where a proof needs it.
- `Runs.Obeys` takes the rules a run keeps to, so that each theorem names the ones it uses.
- `Fits` (A2): a batch points one way, and the edge and degree bounds have room for it and for re-bound edges (`BatchFits`); generations are not at the 64-bit boundary. The structural invariant `Sound` needs no other rule.
- `OwnRoute` (A1): distinct lineages have distinct routes (`RouteIsOwn`). `CorrectsFirst` (A3): a correction's target is the current record or below the current generation (`NotAlreadyReplaced`), which `CorrectionKeepsSingleLiveExactly` shows to be exactly what is needed. With these, `Placed` holds: one live route state in every lineage, indexed under its route and generation.
- `CacheSafe` (A4, A5): adaptation bindings are not ahead of an announced watermark (`AdaptationAnnounced`), a first announcement is not below what live records bind (`FirstAnnouncementCovers`), and no record of a boot that is registered is held to be of a fenced publisher (`NoneHeldFenced`). `NotifyKeepsCacheExactly` and `RegisterKeepsCacheExactly` give the conditions that are exactly what is needed.
- A6, for the object methods only: the visited bound is at least the record bound. The theorems of `Progress`, which put no hypothesis on callers, are about the value model; the objects follow it under A6 only.
- `SampleRuns.FullLife` exhibits a run of seven accepted operations, with a batch, a correction, a first announcement of a bound generation and a compaction that replaces history, that meets A1 to A5.

## Where the code does something else than one would expect

- A second correction of the same route state leaves two live ones at the current generation (`SecondCorrectionBreaks`, reached by `TwoLiveRun`; exact condition `CorrectionKeepsSingleLiveExactly`).
- A boot taken down by a worker-fence notification is not fenced; it can be registered again, and its records then keep a stale stored currentness (reached by `StaleCacheRun`; exact condition `RegisterKeepsCacheExactly`).
- A first announcement below what a live record binds makes the record stale, but only records bound below the announced value are re-evaluated (reached by `StrandedRun`; exact condition `NotifyKeepsCacheExactly`).
- Compaction takes candidates by generation, so one historical record without a generation blocks every compaction of its lineage (`CompactionBlockedExactly`, reached by `BlockedCompactionRun`).
- When the retained ancestry overflows the traversal bounds, compaction protects none of it, and the direct cause of the current record can be replaced (reached by `OverflowRun`). It never does where the bounds admit as many records as a lineage may hold (`ReachedAncestryIsKept`).
- A link reports its edge identity twice. Its ledger entry is the one that can list more edges than a lineage may hold, under an edge bound of one, and the image of such a store is refused (`SavedStoreReadsBack`, reached by `UnreadableImageRun`).
- The replay comparison leaves out the link type, the non-current permission and the explicit lineage (`ReplayIgnores`).
- A registration without scope is refused, but as the first one it has already set the epoch (`RefusedRegistrationSetsEpoch`, `RefusedRegistrationBars`).
- Which error a refused evidence vector reports depends on the order of equal fields exactly when the first faulty field holds both a zero generation and two different ones (`RefusalDependsOnOrder`), which the unstable sort of the program leaves open; that it is refused does not (`CreateIgnoresOrder`).
- An optional expectation that is present but zero is hashed and stored as absent, and comes back absent (`CoreEncodingInjective`, `AuthorityRoundTrip`).

## Model

| member | source | states |
|---|---|---|
| ProvenanceGraphClass.ProvenanceGraph.constructor | src/graph.cpp:70-92 | an empty graph satisfies the class invariant |
| ProvenanceGraphClass.ProvenanceGraph.AddNode | src/graph.cpp:70-92 | the outcome and the new graph are those of the value model for every record; the invariant (adjacency lists sorted and equal to the edge set, acyclic) is kept |
| ProvenanceGraphClass.ProvenanceGraph.CheckAddEdge | src/graph.cpp:94-137 | depth-first search is exact: a cycle is reported exactly when the source is reachable from the target, unless there are more records than `max_visited_nodes` |
| ProvenanceGraphClass.ProvenanceGraph.AddEdge | src/graph.cpp:139-183 | every refusal in the order of the code, exact up to the visited bound; an accepted edge is the only change and keeps the graph acyclic and indexed |
| ProvenanceGraphClass.ProvenanceGraph.Link | src/graph.cpp:174-183 | inserting an edge whose source is not reachable from its target keeps all five maps in agreement and the graph acyclic |
| ProvenanceGraphClass.ProvenanceGraph.OutgoingIds | src/graph.cpp:214-229 | the edges leaving a record, ascending, none for an unknown record |
| ProvenanceGraphClass.ProvenanceGraph.Traverse | src/graph.cpp:231-314 | succeeds exactly when the bounded ball fits both caps, and then returns exactly that ball with shortest distances by (depth, id) and exactly the induced edges; caller bounds never widen the limits |
| ProvenanceGraphClass.ProvenanceGraph.ReadEntry | src/graph.cpp:262-294 | one queue entry: exceeding a cap happens only when the whole ball exceeds it |
| ProvenanceGraphClass.ProvenanceGraph.TopologicalOrder | src/graph.cpp:325-365 | an order is returned exactly when the graph is acyclic; it is a permutation, forward along every edge, smallest available identity next |
| ProvenanceGraphClass.ProvenanceGraph.CompactNode | src/graph.cpp:389-406 | replaces one record by a tombstone of the same identity, edges untouched |
| ProvenanceGraphClass.ProvenanceGraph.UpdateNodeState | src/graph.cpp:408-424 | only a valid lifecycle transition changes a record, and only its mutable state |
| ProvenanceGraphClass.ProvenanceGraph.MarkRevalidated | src/graph.cpp:426-433 | sets one flag of one record |
| ProvenanceGraphClass.ProvenanceGraph.SetCorrectedBy | src/graph.cpp:435-445 | records the replacement of one record |
| ProvenanceGraphClass.ProvenanceGraph.ValidateStructure | src/graph.cpp:447-494 | from any state whose maps are keyed by identity and whose adjacency lists ascend and miss no edge, Ok exactly when every edge joins present records of its own lineage, both adjacency indexes and the derivation index agree with the edge set, and the graph is acyclic |
| GraphModel.AdditionsKeepDag | src/graph.cpp:70-185 | every sequence of record and edge additions keeps the graph well formed and acyclic |
| Structure.AdditionsPassTheCheck | src/graph.cpp:70-494 | after any sequence of additions of records and finalized edges of one lineage, accepted or refused, a graph object that holds the result satisfies exactly what `validate_structure` answers Ok to |
| Digraph.AddArcAcyclic | src/graph.cpp:94-137 | adding an arc keeps a graph acyclic exactly when its source is not reachable from its target |
| Digraph.BallIsBoundedReach | src/graph.cpp:231-314 | the bounded ball is exactly what a path of at most that many edges reaches |
| Digraph.OrderDependsOnSetsOnly | src/graph.cpp:325-365 | the smallest-first order depends on the node and edge sets only, not on insertion order |
| Kahn.FinishPlacing | src/graph.cpp:325-365 | when nothing is ready, a full order proves the graph acyclic and a short one proves a cycle, parallel edges counted |
| Bfs.DrainedIsBall | src/graph.cpp:231-314 | a drained queue has visited exactly the bounded ball, each record at its shortest distance |
| Requests.NormalizeGivesNormalForm | src/store_api.cpp:456-673 | every accepted public call reaches the pipeline in the form the pipeline relies on |
| Evolution.TransitionsRise | src/core.cpp:1293-1323 | every valid lifecycle transition raises the rank Declared, Current, Historical, Superseded, Revoked, Retired, Invalid or keeps it |
| CurrentnessModel.RefreshAgrees | src/store.cpp:370-390 | re-evaluating the stale records restores agreement of the stored value with recomputation for all records |
| Admission.AdmitGivesAdmitted | src/store.cpp:458-748 | a request that passes stages 7 to 13 on a sound store has a fresh record identity and a batch of sound edges |
| Insertions.AdmittedBatchIsInserted | src/store.cpp:786-810 | under A2, stage 14 inserts the record and every edge of an admitted batch: each is new or a duplicate of an earlier one |
| Insertions.AdmittedLinkIsInserted | src/store.cpp:754-785 | an admitted link is inserted or already present |
| Settlement.GrownIsSound | src/store.cpp:750-876 | after the insertion and the correction re-binding the graph is a DAG of sound records and edges |
| CommitSteps.CommitCases | src/store.cpp:417-989 | in every store and for every caller a request stopped before stage 14 leaves the store as it was, up to an empty lineage; on a sound store, under A2, one that is not stopped has exactly the effect of stage 14 with a publication |
| CommitSteps.CommitKeepsSound | src/store.cpp:417-989 | under A2 a commit keeps the structural invariant of the store: identities, acyclic edges, ledger, exact counters, current record present, owner index |
| CommitSteps.CommitKeepsPlaced | src/store.cpp:417-989 | under A1 to A3 a commit keeps one lineage for every route, one live route state in every lineage, and the generation index of the current one |
| CommitInvariants.CommitKeepsInvariant | src/store.cpp:417-989 | under A1 to A4 a commit keeps structure, index reachability and cache agreement together |
| CommitInvariants.IndexNodeReaches | src/store.cpp:942-966 | the indexes reach a new record by everything its currentness depends on |
| CommitCache.SettledAgrees | src/store.cpp:926-940 | re-evaluating only the affected records leaves every record of the lineage in agreement with recomputation |
| CommitCache.UnaffectedUnchanged | src/store.cpp:830-940 | a record outside the affected set is not changed by a commit |
| LineageSteps.SettledSingleLive | src/store.cpp:830-876 | under A3 an accepted request keeps at most one live route state at the current generation |
| LineageSteps.CorrectionKeepsSingleLiveExactly | src/store.cpp:853-876 | a correction keeps a single live route state if and only if its target is the current record or is not at the current generation |
| LineageSteps.SecondCorrectionBreaks | src/store.cpp:589-601 | a second correction of a record leaves two live route states at the current generation |
| BreakingRuns.TwoLiveRun | src/store.cpp:589-601 | a run from the empty store of accepted operations that ends in two live route states: register, root, correct it, correct the same record again; only the last breaks an assumption, and only A3 |
| RegistrySteps.RegisterKeepsInvariant | src/store_api.cpp:118-185 | a registration, and the supersession it causes, keeps the invariant although only the superseded boots' records are re-evaluated, when no record of the boot is held to be of a fenced publisher |
| RegistrySteps.FenceKeepsInvariant | src/store_api.cpp:198-240 | fencing a boot keeps the invariant |
| RegistrySteps.NotifyKeepsInvariant | src/store_api.cpp:268-426 | a notification keeps the invariant although only indexed records below the new value are re-evaluated |
| CompactSteps.CompactLineageExact | src/store_query.cpp:716-788 | compaction replaces exactly the doomed records, all of them unprotected history, and counts them |
| CompactSteps.CompactionPreservesShape | src/store_query.cpp:716-796 | identities, edges, ledger and current record are kept; every record is untouched or a tombstone with its generation and old core digest; protected records are untouched |
| CompactSteps.TraversalShapeKept | src/store_query.cpp:761-788 | every traversal, in any direction, under any filter, has the same (id, depth) result and the same edges before and after |
| CompactSteps.CompactionCounts | src/store_query.cpp:788-814 | the stored history count falls and the compacted count rises by exactly the number compacted; both generations advance exactly when something was |
| CompactSteps.CompactionBlockedExactly | src/store_query.cpp:737-788 | compaction is refused if and only if the first candidate carries no generation, and then changes nothing |
| BreakingRuns.BlockedCompactionRun | src/store_query.cpp:737-788 | a run from the empty store that meets every assumption and after which compaction is refused on account of one undated record and changes nothing: register, declare a policy decision, invalidate it |
| CompactSteps.AncestryIsKept | src/store_query.cpp:723-735 | when the traversal bounds admit as many records as the lineage holds, compaction leaves every record within the retained depth unchanged |
| Runs.ReachedAncestryIsKept | src/store_query.cpp:723-788 | in every store reached from the empty one by any callers, when a traversal may visit and return as many records as a lineage may hold, no compaction replaces a record within the retained depth |
| BreakingRuns.OverflowRun | src/store_query.cpp:723-788 | a run from the empty store that meets every assumption and whose compaction replaces the direct cause of the current record, within the retained depth, because one record is all a traversal may return: register, root, successor, compact |
| CompactSteps.CompactKeepsInvariant | src/store_query.cpp:688-814 | compaction keeps the invariant |
| Runs.RunKeepsSound | src/store.cpp:417-989 | every run that meets A2, whatever else it does, keeps the structural invariant |
| Runs.RunKeepsInvariant | src/store.cpp:417-989 | every run that meets A1 to A5 keeps structure, single live route states, index reachability and cache agreement |
| Runs.CacheAgreement | src/store.cpp:370-411 | in every store reached from the empty one under A1 to A5, the stored currentness of every record of a lineage that is not retired equals recomputation |
| Runs.SingleLiveRouteState | src/store.cpp:830-876 | under A1 to A3, in every reached lineage route states are within the current generation, and the only live one at it is the current record |
| Runs.SingleCurrent | src/store.cpp:68-123 | under A1 to A3 at most one route state computes to CURRENT, whatever the watermarks and publisher liveness |
| Progress.StepProgresses | src/core.cpp:1293-1323 | one operation of any caller on well-formed graphs never lowers a generation or a watermark, freezes closed lineages, and lowers no lifecycle rank unless it compacts |
| Progress.RunProgresses | src/store.cpp:458-464 | over any run of any callers generations and watermarks never fall, a revoked or retired lineage gains no record or edge and keeps its current record, in a retired one no record turns CURRENT, and without compaction lifecycle ranks never fall |
| Progress.ReachedProgresses | src/store.cpp:458-464 | the same between any two points of any run from the empty store, with no hypothesis on the callers |
| Attempts.RepeatAnswered | src/store.cpp:483-499 | a repeated attempt changes nothing and gets the recorded answer, or a conflict if the digest differs |
| Attempts.CommitRecorded | src/store.cpp:968-989 | a commit that reaches stage 14 records its attempt with exactly what it answered, or answers no publication and leaves the ledger as it was |
| Attempts.ExactlyOnce | src/store.cpp:466-499 | after an accepted attempt and any further run of any callers, the same attempt changes nothing: Idempotent with the same record and edges if and only if the compared content is equal, otherwise Conflict |
| Attempts.CreatedRecordsDistinct | src/store.cpp:968-982 | under A2 ledger entries of commits that created records name distinct, present records |
| Attempts.ReplayIgnores | src/store.cpp:34-63 | the compared content leaves out the link type, the non-current permission and the explicit lineage: a repetition that changes only these is answered as a replay |
| Sessions.RunVersioned | src/store_api.cpp:796-843 | over any run under A2, either the store generation rises or records, edges, ledger, lineage states and watermarks are the same |
| Sessions.SessionSeesItsSnapshot | src/store_api.cpp:756-843 | a session that passes its checks commits against the content it was begun on, whatever ran in between under A2 |
| Ancestry.ReplacementReachesTheSame | src/store.cpp:853-876 | a replacement reaches by successor edges exactly the records its corrected target reaches, before and after |
| Ancestry.RootedAncestry | src/store.cpp:853-876 | under A2, without compaction and when every publication that is not a root names what it succeeds, every route state of every reached lineage reaches a root along successor edges of strictly falling generation |
| RegistryRuns.FencedForGood | src/store_api.cpp:118-240 | in every run, with no assumption on callers, a publisher has at most one live boot and a fenced boot never becomes live again |
| Origins.ReachedOriginated | src/store.cpp:942-966 | in every store reached from the empty one by any callers, the boot index lists an identity only under a boot that signed content of that identity, and the path, policy and evidence indexes only under a generation that such content binds |
| BootIndexes.RegisterKeepsCacheExactly | src/store_api.cpp:118-185 | an accepted registration keeps stored currentness equal to recomputation if and only if no record of the boot, in a lineage that is not retired, is held FENCED_PUBLISHER |
| BootIndexes.RegistrationAfterRun | src/store_api.cpp:118-185 | the same of every store a run from the empty one reaches |
| BreakingRuns.StaleCacheRun | src/store_api.cpp:394-425 | a run from the empty store of accepted operations after which a record is stored FENCED_PUBLISHER where recomputation gives CURRENT: register, root, a second publisher registers and takes the first boot down, the first registers again; only the last breaks an assumption, and only A5 |
| Announcements.NotifyKeepsCacheExactly | src/store_api.cpp:268-426 | an accepted notification keeps stored currentness equal to recomputation if and only if it strands no live record: none is bound ahead of a generation announced for the first time, unless the record is already stale for a reason that takes precedence or, for a policy, is bound below the announced one as well |
| Announcements.AnnouncementAfterRun | src/store_api.cpp:268-426 | the same of every store a run from the empty one reaches with its cache exact |
| BreakingRuns.StrandedRun | src/store_api.cpp:296-314 | a run from the empty store of accepted operations after which a record keeps a stored currentness that recomputation contradicts: register, root bound to a path generation, announce an older one first; only the last breaks an assumption, and only A4 |
| Progress.RunWithin | src/store.cpp:725-748 | over any run of any callers lineages within their bounds stay within them and acyclic graphs stay acyclic: lineages, records, edges, degrees, attempts, key length, and the length of ledger entries but for a link under an edge bound of one |
| Progress.ReachedWithin | src/store.cpp:725-748 | no lineage reached from the empty store exceeds a configured bound or holds a cycle, with no hypothesis on the callers |
| SampleRuns.RootIsPublished | src/store.cpp:417-989 | from the empty store a registered publisher's root publication is accepted, becomes the current record and is CURRENT; the run meets every assumption |
| Acceptance.LetThroughIsApplied | src/store.cpp:417-989 | on a sound store with room, a request that is authorized and that stages 10 to 13 let through with at most one outward edge meets A2 and is applied whole |
| SampleRuns.FullLife | src/store.cpp:417-989 | a run from the empty store in which every operation is accepted and every assumption holds: register, root, successor, correction, path announcement, successor, and a compaction that replaces history |
| ProvenanceStores.ProvenanceStore.Acquire | src/store.cpp:270-300 | finds the lineage object or adds a fresh empty one; no other object changes |
| ProvenanceStores.ProvenanceStore.Admit | src/store.cpp:458-748 | stages 7 to 13 decide as the value model does and change nothing |
| ProvenanceStores.ProvenanceStore.Apply | src/store.cpp:750-989 | stage 14 on the objects gives exactly the value model's store, outcome and publication, also where it stops half-way |
| ProvenanceStores.ProvenanceStore.Commit | src/store.cpp:417-989 | the pipeline run on the objects: store, outcome and publication equal those of the value model, and the objects stay separate |
| ProvenanceStores.ProvenanceStore.ReevaluateIndex | src/store.cpp:392-411 | grouping by owner and re-evaluating group by group equals re-evaluating every owned record |
| ProvenanceStores.ProvenanceStore.FenceOthers | src/store_api.cpp:157-168 | one pass over the registry fences exactly the other live boots of the publisher |
| ProvenanceStores.ProvenanceStore.Register | src/store_api.cpp:118-185 | registration on the objects equals the value model |
| ProvenanceStores.ProvenanceStore.Fence | src/store_api.cpp:198-240 | fencing on the objects equals the value model |
| ProvenanceStores.ProvenanceStore.Collect | src/store_api.cpp:290-294 | walking an ascending index up to a value collects exactly the records listed below it |
| ProvenanceStores.ProvenanceStore.Notify | src/store_api.cpp:268-426 | notification on the objects equals the value model |
| ProvenanceStores.ProvenanceStore.Compact | src/store_query.cpp:688-814 | compaction on the objects equals the value model |
| ProvenanceStores.ProvenanceStore.CommitSession | src/store_api.cpp:796-843 | the checks, in order, then the commit |
| ProvenanceStores.ProvenanceStore.IndexAll | src/persistence.cpp:626-652 | rebuilding the indexes record by record equals the value model |
| ProvenanceStores.ProvenanceStore.Load | src/persistence.cpp:529-669 | load replaces the objects by fresh ones exactly as the value model says, or changes nothing |
| LineageObjects.LineageObject.Reevaluate | src/store.cpp:370-390 | in-place re-evaluation of a list equals the function on its set and never fails |
| LineageObjects.LineageObject.BuildEdges | src/store.cpp:678-723 | the edge loop of stage 12, with its first refusal |
| LineageObjects.LineageObject.InsertBatch | src/store.cpp:750-815 | the insertions of stage 14, with their first refusal |
| LineageObjects.LineageObject.Rebind | src/store.cpp:853-868 | the re-binding loop of a correction |
| LineageObjects.LineageObject.Move | src/store.cpp:830-904 | the transition of each kind of request |
| LineageObjects.LineageObject.PromoteAll | src/store.cpp:906-917 | promotion of declared targets of evidence relations |
| LineageObjects.LineageObject.Settle | src/store.cpp:812-982 | bookkeeping, transition, promotion, counters, re-evaluation and ledger in place equal the value model |
| LineageObjects.LineageObject.Protect | src/store_query.cpp:716-735 | the protected set, by a loop and a bounded traversal |
| LineageObjects.LineageObject.Compact | src/store_query.cpp:737-788 | the tombstone loop equals the value model, including a refusal half-way |
| LineageObjects.LineageObject.Demote | src/persistence.cpp:575-587 | in-place demotion equals the value model and never fails |
| LineageObjects.LineageObject.Rebuild | src/persistence.cpp:540-604 | records, edges, structural check and ledger in place: false exactly when the value model refuses the lineage, and otherwise its result |
| LineageObjects.LoadLineageObject | src/persistence.cpp:540-604 | rebuilding one lineage through the graph's own checks succeeds exactly when the value model does, with the same result |
| Recovery.AnyOrderAccepted | src/persistence.cpp:551-557 | the edges of an acyclic graph within the degree bounds are accepted in any order and give that graph back |
| Recovery.ExportLoads | src/persistence.cpp:479-669 | load accepts the export of every sound store within its bounds whose lineages have distinct routes |
| Recovery.ReachedExportLoads | src/persistence.cpp:479-669 | load accepts the export of every store that a run under A1 and A2 reaches from the empty one |
| Recovery.ConservativeRecovery | src/persistence.cpp:529-669 | after loading the export of a store that satisfies the whole invariant, no record is CURRENT, every core, edge and ledger entry is unchanged and the stored currentness is exact |
| Recovery.ReachedRecovery | src/persistence.cpp:529-669 | the same of every store that a run under A1 to A5 reaches from the empty one |
| Recovery.LoadIndexesEverything | src/persistence.cpp:615-652 | after any load the rebuilt indexes reach every record by everything its currentness depends on |
| ImageCodec.ImageRoundTrip | src/persistence.cpp:87-387 | decoding the encoding of a good image gives it back in stored form, or is StoreCorrupt, exactly by whether every ledger entry lists at most as many edges as a lineage may hold |
| Persistence.ExportedImageIsGood | src/persistence.cpp:479-516 | the export of every sound store within its bounds, whose values fit their fields, passes every check of the decoder but the length of ledger entries |
| Persistence.SavedStoreReadsBack | src/persistence.cpp:87-516 | save and decode give a sound store within its bounds back, up to the derived counters, the last digest and zero identities, or the image is StoreCorrupt, exactly by whether the edge bound is one and the ledger lists a link |
| Persistence.ReachedStoreReadsBack | src/persistence.cpp:87-516 | the same of every store that a run under A2 reaches from the empty one |
| BreakingRuns.UnreadableImageRun | src/codec.cpp:411-442 | a run from the empty store that meets every assumption and whose export, if it encodes, is answered StoreCorrupt when it is decoded, the ledger listing a link under an edge bound of one: register, declare twice, link |
| ImageStreams.EncodeStoreImage | src/persistence.cpp:87-170 | the encoding loops over a writer equal the encoding function, refusals included |
| ImageStreams.OpenStoreImage | src/persistence.cpp:172-229 | the header, the size and the trailer are checked in the order of the specification, with its first refusal |
| ImageStreams.DecodeStoreBody | src/persistence.cpp:231-387 | the lineages are read and checked, with the identity sets and the structural check, as the specification says |
| ImageStreams.DecodeStoreImage | src/persistence.cpp:172-387 | the decoding loops over a reader, equal the decoding function: header and trailer, then the body |
| Codec.EvidenceRoundTrip | src/codec.cpp:37-67 | evidence reads back |
| Codec.AuthorityRoundTrip | src/codec.cpp:69-124 | an authority reads back, a zero expectation as absent |
| Codec.BindingsRoundTrip | src/codec.cpp:126-253 | bindings read back for every presence combination |
| Codec.NodeRoundTrip | src/codec.cpp:255-346 | a record reads back |
| Codec.EdgeRoundTrip | src/codec.cpp:348-394 | an edge reads back |
| Codec.AttemptRoundTrip | src/codec.cpp:396-442 | a ledger entry reads back if and only if it lists at most as many edges as a lineage may hold |
| CodecStreams.WriteBindings | src/codec.cpp:126-188 | the writes append exactly the encoding |
| CodecStreams.ReadBindings | src/codec.cpp:190-253 | the reads consume exactly the encoding or fail |
| CodecStreams.WriteNode | src/codec.cpp:255-277 | the writes append exactly the encoding |
| CodecStreams.ReadNode | src/codec.cpp:279-346 | the reads consume exactly the encoding or fail |
| CodecStreams.ReadEvidence | src/codec.cpp:45-67 | count-prefixed entries, then the canonical vector |
| CodecStreams.ReadAttempt | src/codec.cpp:411-442 | the reads consume exactly the encoding or fail |
| Streams.Writer.Number | src/codec.hpp:25-40 | little-endian bytes are appended one at a time |
| Streams.Reader.Number | src/codec.hpp:87-125 | reads move the cursor; failure is sticky and yields zero |
| Streams.Reader.Text | src/codec.hpp:126-135 | a bounded length-prefixed text, or failure |
| EvidenceVectors.CreateVector | src/core.cpp:777-802 | the sort and the duplicate scan compute the specified vector |
| EvidenceVectors.CreateResult | src/core.cpp:777-802 | creation succeeds exactly for consistent entries within the bound, and gives the canonical vector of the same entries |
| EvidenceVectors.CreateIgnoresOrder | src/core.cpp:777-802 | every permutation of the entries gives the same vector |
| EvidenceVectors.RefusalDependsOnOrder | src/core.cpp:777-802 | the error of a refused vector is the same in every order of its entries if and only if its first faulty field does not hold both a zero generation and two different ones |
| EvidenceVectors.ErrorOfFirstFault | src/core.cpp:777-802 | a vector within the bound with a faulty field is refused for the first one: as an invalid generation unless that field holds two different ones, as malformed unless it holds a zero |
| Canonical.DecodeEncode | src/core.cpp:499-562 | a sequence of (id, length, payload) fields is uniquely decodable |
| Canonical.CoreEncodingInjective | src/core.cpp:1171-1190 | two record cores encode to equal bytes only if all hashed fields are equal, up to absent-or-zero |
| Canonical.DerivationEncodingInjective | src/core.cpp:1205-1219 | the same for derivations |
| Canonical.BindingsInjective | src/core.cpp:1098-1165 | the same for bindings, whatever is present |
| Canonical.SameDomainMessages | src/core.cpp:556-562 | within a domain the hashed message, of domain, length and encoding, determines the encoding |
| Canonical.RecordIdentityAddressesContent | src/core.cpp:1171-1200 | for a collision-free hash over the domain, the length and the encoding, record identities are equal exactly for equal content |
| CanonicalEncoders.CanonicalEncoder.AddField | src/core.cpp:507-516 | a field is appended to the buffer |
| CanonicalEncoders.CanonicalEncoder.AddNested | src/core.cpp:552-554 | a nested buffer becomes one field |
| CanonicalEncoders.EncodeBindings | src/core.cpp:1098-1165 | the buffer built from bindings is their encoding |
| CanonicalEncoders.EncodeCore | src/core.cpp:1171-1190 | the buffer built from a record is the encoding of its core |
| CanonicalEncoders.EncodeDerivation | src/core.cpp:1205-1219 | the buffer built from an edge is the encoding of its derivation |
| FieldBags.FieldBag.Rebuild | src/wire.cpp:548-560 | the buffer is the ascending canonical form of the fields |
| FieldBags.FieldBag.SetBytes | src/wire.cpp:505-511 | setting a field keeps the buffer canonical |
| FieldBags.FieldBag.Read | src/wire.cpp:577-603 | the parser loop computes the specified parse |
| FieldBags.ParsePrint | src/wire.cpp:548-603 | decoding an encoded bag gives the bag back |
| FieldBags.AnyOrderParses | src/wire.cpp:577-603 | any duplicate-free order of the fields decodes to the same bag |
| FieldBags.PrintIsCanonical | src/wire.cpp:548-603 | re-encoding gives one ascending form, whatever order was decoded |
| WireBindings.BindingsSurviveTheWire | src/wire.cpp:164-287 | taking what was put gives the bindings back for every presence combination, despite the presence-dependent field numbers |
| WireBindings.FillBindings | src/wire.cpp:164-221 | the cursor-driven puts fill the bag as specified |
| Frames.FrameRoundTrip | src/wire.cpp:380-499 | an encoded frame decodes to its header and payload |
| Frames.AcceptedExactly | src/wire.cpp:438-499 | a frame is accepted if and only if it is the encoding of the content it decodes to |
| Frames.WriteFrame | src/wire.cpp:380-436 | the byte pushes compute the specified frame or refusal |
| Frames.ReadFrame | src/wire.cpp:438-499 | the reads compute the specified content or refusal |
| Sha256.Hasher.Update | src/core.cpp:340-363 | for any split, state is the fold of compression over the full blocks and the buffer holds the remainder |
| Sha256.Hasher.Finish | src/core.cpp:392-424 | padding as in section 5.1.1 of FIPS 180-4 and the digest of section 6.2.2; a second call returns the same value |
| Sha256.Hasher.CompressBlock | src/core.cpp:289-338 | schedule and rounds in place compute the specified compression |
| Sha256.Hash | src/core.cpp:435-439 | the one-shot digest |
| Sha256.HashPieces | src/core.cpp:340-424 | any split of a message into pieces gives the one-shot digest |
| Sha256.PaddingIsSpecified | src/core.cpp:392-424 | the bytes fed by finish are the specified padding |

## Left out

- Mutexes and interleavings: every public operation is one step. `commit_session` checks and then commits in two critical sections; the model joins them.
- `src/net.cpp` and the command-line tools, sample programs and benchmarks: sockets, processes, session framing and timing.
- File reading, flushing, renaming and path conversion in `src/persistence.cpp`; `load` and `decode_store_image` are modelled from the bytes on.
- The message payload codecs of `src/wire.cpp` beyond the field bag, the bindings and the frame layer: repetitive.
- The queries of `src/store_query.cpp` (`explain`, chains, snapshots, `stats`), `compute_diff` and `render_explanation`: they change nothing and the traversal they rest on is proved. The indexes only they read (path, publisher) are not part of the store here.
- Collision resistance of SHA-256: assumed where identities are used; `Sha256` proves that the digest is computed as specified.
- Publisher fencing across `load`: the registry is cleared there, so a fenced boot may register again.
- Currentness agreement in retired lineages: only the affected records are refreshed when a lineage retires.
- Lifecycle ranks under compaction: a tombstone is Historical whatever its record was.
- 64-bit overflow of the image size arithmetic: sizes are unbounded here.
- Error texts: outcomes are modelled, their wording is not.
- Runs that begin with `load`: the theorems about runs start from the empty store; for a loaded one, acceptance, conservative recovery and index completeness are proved.
- ProvenanceStores.ProvenanceStore.Commit: is stated under A6 (the visited bound is at least the record bound), because otherwise a cycle check may overflow; `CheckAddEdge` and `AddEdge` of the graph class state the exact relation.
- ImageStreams.DecodeStoreImage: is stated under A6 for the same reason.
- LineageObjects.LoadLineageObject: is stated under A6 for the same reason.
- Streams.Writer.Number: the writer appends to a growing sequence; its allocation and `patch_*` calls are not modelled.
