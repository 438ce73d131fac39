// The replay ledger: an attempt takes effect at most once, however often it is repeated and
// whatever happens in between.
module Attempts {
  import opened Types
  import opened GraphModel
  import opened StoreTypes
  import opened Requests
  import opened CommitPipeline
  import opened Operations
  import opened Soundness
  import opened Settlement
  import opened LineageSteps
  import opened CommitSteps
  import opened Growth
  import opened Progress
  import opened Runs

  ghost predicate DigestsInjective(env: Env) {
    forall a, b :: env.requestDigestOf(a) == env.requestDigestOf(b) ==> a == b
  }

  /** The ledger entry of an attempt. */
  function EntryAt(lin: Lineage, key: AttemptKey): Option<AttemptRecord> {
    if key in lin.attempts then Some(lin.attempts[key]) else None
  }

  /** The request repeats a recorded attempt of an open lineage, by a caller still authorised. */
  ghost predicate Repeats(env: Env, s: Store, r: Request, entry: AttemptRecord) {
    var lid := env.lineageIdOf(r.key);
    && Authorize(env, s, r) == Ok && !Closed(LineageAt(s, lid).state.lifecycle)
    && EntryAt(LineageAt(s, lid), AttemptKeyOf(r.authority)) == Some(entry)
  }

  /** Nothing changed, and the answer is what was recorded, or a conflict. */
  predicate AnsweredFrom(c: CommitResult, s: Store, entry: AttemptRecord, digest: nat) {
    && c.store == s
    && if entry.request == digest
       then c.outcome == Idempotent && Publishes(c, entry.node, entry.edges)
       else c.outcome == Conflict && c.publication.None?
  }

  predicate Publishes(c: CommitResult, node: nat, edges: seq<nat>) {
    match c.publication
    case Some(p) => p.node == node && p.edges == edges
    case None => false
  }

  /** A repeated attempt changes nothing. It is answered with what was recorded when the request
      digest is the recorded one, and is a conflict otherwise. */
  lemma RepeatAnswered(env: Env, s: Store, r: Request, entry: AttemptRecord)
    requires Repeats(env, s, r, entry)
    ensures AnsweredFrom(Commit(env, s, r), s, entry, env.RequestDigest(r))
  {
    hide StageBuild, StageChecks, StageExpected, Apply, Env.RequestDigest;
  }

  /** What stage 14 leaves in the ledger and answers, wherever it stops. */
  ghost predicate Recorded(env: Env, r: Request, lid: nat, before: map<AttemptKey, AttemptRecord>, c: CommitResult) {
    lid in c.store.lineages &&
    match c.publication
    case None => LineageAt(c.store, lid).attempts == before
    case Some(p) =>
      match EntryAt(LineageAt(c.store, lid), AttemptKeyOf(r.authority))
      case None => false
      case Some(entry) => entry.request == env.RequestDigest(r) && entry.node == p.node && entry.edges == p.edges
  }

  lemma ConcludedRecorded(env: Env, s: Store, lid: nat, r: Request, node: Node, outcome: Outcome, settled: Lineage,
                          before: map<AttemptKey, AttemptRecord>)
    requires RequestRecorded(env, r, settled)
    ensures Recorded(env, r, lid, before, Concluded(s, lid, r, node, outcome, settled))
  {
    hide IndexNode, AttemptKeyOf, Env.RequestDigest;
  }

  ghost predicate RequestRecorded(env: Env, r: Request, settled: Lineage) {
    match EntryAt(settled, AttemptKeyOf(r.authority))
    case None => false
    case Some(entry) => entry.request == env.RequestDigest(r)
  }

  lemma ApplyRecorded(env: Env, s: Store, lid: nat, r: Request, node: Node, edges: seq<Edge>)
    ensures Recorded(env, r, lid, LineageAt(s, lid).attempts, Apply(env, s, lid, r, node, edges))
  {
    hide InsertBatch, Settle, SettledWell, Concluded, Next, LineageAt, RequestRecorded, Recorded, WithLineage, Marked;
    var lin := LineageAt(s, lid);
    var ins := InsertBatch(lin.graph, r, node, edges, env.limits);
    var settled := Settle(env, Marked(s), lin, r, node, ins);
    SettleIsWell(env, Marked(s), lin, r, node, ins);
    SettledRequest(env, lin, r, ins, settled);
    ConcludedRecorded(env, s, lid, r, node, ins.outcome, settled, lin.attempts);
    StoppedRecorded(env, s, lid, r, ins.graph, Apply(env, s, lid, r, node, edges).outcome);
  }

  /** Stopped early, stage 14 leaves the ledger as it was. */
  lemma StoppedRecorded(env: Env, s: Store, lid: nat, r: Request, g: Graph, o: Outcome)
    ensures
      var partial := WithLineage(s, lid, LineageAt(s, lid).(graph := g));
      && Recorded(env, r, lid, LineageAt(s, lid).attempts, CommitResult(partial, o, None))
      && Recorded(env, r, lid, LineageAt(s, lid).attempts, CommitResult(Marked(partial), o, None))
  {
    hide Env.RequestDigest, NewLineage, AttemptKeyOf;
  }

  /** A commit that reaches stage 14 records its attempt if it publishes, under the digest of the
      request and with exactly what it answered, and otherwise leaves the ledger as it was. */
  lemma CommitRecorded(env: Env, s: Store, r: Request)
    requires Proceeds(env, s, r)
    ensures Recorded(env, r, env.lineageIdOf(r.key), LineageFor(env, s, r).attempts, Commit(env, s, r))
  {
    hide Recorded, Admit, Apply, LineageAt;
    match Decision(env, s, r)
    case Proceed(node, edges) => ApplyRecorded(env, Acquired(env, s, r), env.lineageIdOf(r.key), r, node, edges);
    case _ =>
  }

  lemma SettledRequest(env: Env, lin: Lineage, r: Request, ins: Insertion, settled: Lineage)
    requires SettledWell(env, lin, r, ins, settled)
    ensures RequestRecorded(env, r, settled)
  {
    hide Grows, Env.RequestDigest;
  }

  lemma EntryKept(s: Store, t: Store, lid: nat, key: AttemptKey, entry: AttemptRecord)
    requires StoreProgresses(s, t) && EntryAt(LineageAt(s, lid), key) == Some(entry)
    ensures EntryAt(LineageAt(t, lid), key) == Some(entry)
  {
    hide Frozen, KeepsEdges;
  }

  /** The second answer to an attempt: the first one's record and edges for an equal request, a
      conflict for a different one, and no change. */
  predicate AnsweredAgain(first: CommitResult, t: Store, second: CommitResult, equal: bool) {
    && second.store == t && (second.outcome == Idempotent <==> equal)
    && (second.outcome == Idempotent || second.outcome == Conflict)
    && match first.publication
       case None => false
       case Some(p) => second.outcome == Idempotent ==> Publishes(second, p.node, p.edges)
  }

  /** Exactly once. After an attempt is accepted, in whatever store, and after any further run of
      any callers, the same attempt on the still open lineage changes nothing: an equal request gets
      the first answer's record and edges, a different one is a conflict. */
  lemma ExactlyOnce(env: Env, s: Store, r: Request, ops: seq<Op>, again: Request)
    requires DigestsInjective(env) && AllWellFormed(s) && Submitted(r, env.limits)
    requires Proceeds(env, s, r) && Commit(env, s, r).publication.Some?
    requires again.key == r.key && AttemptKeyOf(again.authority) == AttemptKeyOf(r.authority)
    requires
      var t := Run(env, Commit(env, s, r).store, ops);
      Authorize(env, t, again) == Ok && !Closed(LineageAt(t, env.lineageIdOf(r.key)).state.lifecycle)
    ensures
      var t := Run(env, Commit(env, s, r).store, ops);
      AnsweredAgain(Commit(env, s, r), t, Commit(env, t, again), LedgerContent(again) == LedgerContent(r))
  {
    hide Commit, Run, Proceeds, StoreProgresses, StoreDevelops, Authorize, LedgerContent, RanksRise, MarksRise,
      AllWellFormed, Submitted, LineageAt, AttemptKeyOf;
    var first, lid := Commit(env, s, r), env.lineageIdOf(r.key);
    CommitRecorded(env, s, r);
    CommitDevelops(env, s, r);
    DevelopingStore(env, s, first.store);
    RunProgresses(env, first.store, ops);
    var t := Run(env, first.store, ops);
    var entry := EntryAt(LineageAt(first.store, lid), AttemptKeyOf(r.authority)).value;
    EntryKept(first.store, t, lid, AttemptKeyOf(r.authority), entry);
    RepeatAnswered(env, t, again, entry);
  }

  /** In every reached store the ledger entries of commits that created a record name distinct
      records, all of them present. */
  lemma CreatedRecordsDistinct(env: Env, ops: seq<Op>, lid: nat)
    requires env.CollisionFree() && Obeys(env, EMPTY_STORE, ops, {Fits})
    ensures LedgerSound(LineageAt(Run(env, EMPTY_STORE, ops), lid))
  {
    hide LineageSound, Env.CollisionFree, Run, Obeys, GraphSound;
    var s := Run(env, EMPTY_STORE, ops);
    if lid in s.lineages {
      ReachedLineageSound(env, ops, lid);
      SoundParts(env, lid, LineageAt(s, lid));
    }
  }

  /** What the ledger compares leaves three fields out: a repetition that changes only the link
      type, the non-current permission, or whether the lineage is named explicitly, is answered as
      a replay. */
  lemma ReplayIgnores(env: Env, s: Store, r: Request, entry: AttemptRecord, etype: EdgeType, allow: bool,
                      named: Option<nat>)
    requires Repeats(env, s, r, entry) && named in {None, Some(env.lineageIdOf(r.key))}
    requires entry.request == env.RequestDigest(r)
    ensures
      var c := Commit(env, s, r.(linkType := etype, allowNonCurrent := allow, explicitLineage := named));
      c.outcome == Idempotent && c.store == s
  {
    hide Commit, LineageAt;
    var r' := r.(linkType := etype, allowNonCurrent := allow, explicitLineage := named);
    assert LedgerContent(r') == LedgerContent(r);
    RepeatAnswered(env, s, r', entry);
  }
}
