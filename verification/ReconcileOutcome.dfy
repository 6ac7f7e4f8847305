/** What one reconcile leaves when operations fail: which rows survive a failing delete,
    what a failing ingest got to store, and what the checkpoint remembers. */
module ReconcileOutcome {
  import opened Common
  import opened Reconcile
  import opened ReconcileTheorems

  // ------------------------------------------------------------ deleting

  /** The batch a position falls in. */
  function BatchOf(p: nat): nat { p / 500 }

  /** No batch that holds the id succeeds. */
  ghost predicate Spared(ids: seq<Id>, ok: nat -> bool, k: nat, id: Id) {
    forall p: nat :: p < |ids| && ids[p] == id ==> !ok(k + BatchOf(p))
  }

  /** A row is deleted exactly when its id stands in some batch that succeeds. */
  lemma {:induction false} BatchesExactly(rows: seq<Row>, ids: seq<Id>, ok: nat -> bool, k: nat, r: Row)
    ensures r in AfterBatches(rows, ids, ok, k) <==> r in rows && Spared(ids, ok, k, r.id)
    decreases |ids|
  {
    if ids != [] {
      var n := if |ids| < BatchSize then |ids| else BatchSize;
      var next := if ok(k) then Without(rows, ids[..n]) else rows;
      BatchStep(rows, ids, ok, k);
      WithoutMembers(rows, ids[..n], r);
      FirstAndRest(ids, n, ok, k, r.id);
      hide AfterBatches, Without, Spared;
      BatchesExactly(next, ids[n..], ok, k + 1, r);
    }
  }

  lemma BatchStep(rows: seq<Row>, ids: seq<Id>, ok: nat -> bool, k: nat)
    requires ids != []
    ensures var n := if |ids| < BatchSize then |ids| else BatchSize;
      AfterBatches(rows, ids, ok, k) == AfterBatches(if ok(k) then Without(rows, ids[..n]) else rows, ids[n..], ok, k + 1)
  {}

  /** An id spared by every batch is spared by the first and by the rest. */
  lemma FirstAndRest(ids: seq<Id>, n: nat, ok: nat -> bool, k: nat, id: Id)
    requires n == (if |ids| < BatchSize then |ids| else BatchSize)
    ensures Spared(ids, ok, k, id) <==> (id in ids[..n] ==> !ok(k)) && Spared(ids[n..], ok, k + 1, id)
  {
    if Spared(ids, ok, k, id) {
      if id in ids[..n] { var p :| 0 <= p < n && ids[..n][p] == id; assert ids[p] == id && BatchOf(p) == 0; }
      forall p: nat | p < |ids[n..]| && ids[n..][p] == id ensures !ok(k + 1 + BatchOf(p)) { assert ids[p + n] == id && BatchOf(p + n) == 1 + BatchOf(p); }
    }
    if (id in ids[..n] ==> !ok(k)) && Spared(ids[n..], ok, k + 1, id) {
      forall p: nat | p < |ids| && ids[p] == id ensures !ok(k + BatchOf(p)) {
        if p < n { assert ids[..n][p] == id && BatchOf(p) == 0; } else { assert ids[n..][p - n] == id && BatchOf(p) == 1 + BatchOf(p - n); }
      }
    }
  }

  /** A source's deletion succeeds exactly when every batch of it does. */
  lemma {:induction false} DeletedIff(ids: seq<Id>, ok: nat -> bool, k: nat)
    ensures AllBatches(ids, ok, k) <==> forall p: nat :: p < |ids| ==> ok(k + BatchOf(p))
    decreases |ids|
  {
    if ids != [] {
      var n := if |ids| < BatchSize then |ids| else BatchSize;
      DeletedIff(ids[n..], ok, k + 1);
      var rest := ids[n..];
      if forall p: nat :: p < |ids| ==> ok(k + BatchOf(p)) {
        assert BatchOf(0) == 0;
        forall p: nat | p < |rest| ensures ok(k + 1 + BatchOf(p)) { assert BatchOf(p + n) == 1 + BatchOf(p); }
      }
      if ok(k) && forall p: nat :: p < |rest| ==> ok(k + 1 + BatchOf(p)) {
        forall p: nat | p < |ids| ensures ok(k + BatchOf(p)) {
          if p < n { assert BatchOf(p) == 0; } else { assert BatchOf(p) == 1 + BatchOf(p - n); }
        }
      }
    }
  }

  // ------------------------------------------------------------ ingesting

  /** A file whose ingest raises part way keeps exactly the chunks before that. */
  lemma FailedIngestLeaves(env: Env, d: Disk, w: World, s: Source, k: nat)
    requires Scanned(env, d) && Injective(env) && WellKeyed(env, w.rows)
    requires s in d.hash && ToIngest(env, d, w.rows, s) && !Skipped(d, w, s) && env.ingestFails(s) == Some(k)
    ensures var n := env.chunks(s, d.hash[s]);
      RowsOf(Run(env, d, w).rows, s) == ChunkRows(env, s, d.hash[s], 0, if k < n then k else n)
  {
    var list := ToDelete(env, d, w.rows);
    var rows := DeletePhase(env, w.rows, list, w.rows);
    SourcesMembers(w.rows, s);
    ToDeleteMembers(env, d, w.rows, s);
    forall r ensures r in rows ==> r in w.rows { DeletePhaseMembers(env, w.rows, list, w.rows, r); }
    forall r: Row | r.source == Some(s) ensures r !in rows {
      DeletePhaseMembers(env, w.rows, list, w.rows, r);
      assert r in w.rows ==> r in RowsOf(w.rows, s);
    }
    assert WellKeyed(env, rows) && RowsOf(rows, s) == {};
    hide DeletePhase, IngestPhase, ToDelete, Clean, Sources, WellKeyed, ChunkRows, ToIngest;
    PartIngested(env, d, w.rows, d.order, World(rows, w.done), s, k);
  }

  lemma {:induction false} PartIngested(env: Env, d: Disk, index: seq<Row>, order: seq<Source>, w: World, s: Source, k: nat)
    requires Injective(env) && WellKeyed(env, w.rows) && (forall t :: t in order ==> t in d.hash) && Distinct(order)
    requires s in order && ToIngest(env, d, index, s) && env.ingestFails(s) == Some(k) && RowsOf(w.rows, s) == {} && !(s in w.done && w.done[s] == d.hash[s])
    ensures var n := env.chunks(s, d.hash[s]);
      RowsOf(IngestPhase(env, d, index, order, w).rows, s) == ChunkRows(env, s, d.hash[s], 0, if k < n then k else n)
    decreases |order|
  {
    var t := order[0];
    var next := if ToIngest(env, d, index, t) then IngestOne(env, w, t, d.hash[t]) else w;
    assert order == [t] + order[1..];
    IngestOneEffect(env, w, t, d.hash[t]);
    if t == s {
      OnePart(env, w, s, d.hash[s], k);
      assert s !in order[1..];
      IngestPhaseEffect(env, d, index, order[1..], next, s);
    } else {
      PartIngested(env, d, index, order[1..], next, s, k);
    }
  }

  ghost predicate Distinct(order: seq<Source>) {
    forall i, j :: 0 <= i < j < |order| ==> order[i] != order[j]
  }

  lemma OnePart(env: Env, w: World, s: Source, h: Hash, k: nat)
    requires Injective(env) && WellKeyed(env, w.rows) && env.ingestFails(s) == Some(k) && RowsOf(w.rows, s) == {} && !(s in w.done && w.done[s] == h)
    ensures var n := env.chunks(s, h); RowsOf(IngestOne(env, w, s, h).rows, s) == ChunkRows(env, s, h, 0, if k < n then k else n)
  {
    var n := env.chunks(s, h);
    var m := if k < n then k else n;
    forall j: nat, i | j < m && 0 <= i < |w.rows| ensures w.rows[i].id != env.chunkId(s, j) {
      assert w.rows[i] in w.rows && w.rows[i] !in RowsOf(w.rows, s);
    }
    IngestEffect(env, w.rows, s, h, 0, m);
    hide Ingest, ChunkRows;
  }

  // ------------------------------------------------------------ the checkpoint

  ghost predicate SameEntry(a: map<Source, Hash>, b: map<Source, Hash>, s: Source) {
    (s in a <==> s in b) && (s in a ==> a[s] == b[s])
  }

  lemma {:induction false} EntriesAfter(env: Env, d: Disk, index: seq<Row>, order: seq<Source>, w: World, s: Source)
    requires (forall t :: t in order ==> t in d.hash) && Distinct(order)
    ensures var done := IngestPhase(env, d, index, order, w).done;
      if s in order && ToIngest(env, d, index, s) && env.ingestFails(s).None? then s in done && done[s] == d.hash[s]
      else SameEntry(w.done, done, s)
    decreases |order|
  {
    hide Ingest, ToIngest;
    if order != [] {
      var t := order[0];
      assert order == [t] + order[1..] && t !in order[1..];
      EntriesAfter(env, d, index, order[1..], if ToIngest(env, d, index, t) then IngestOne(env, w, t, d.hash[t]) else w, s);
    }
  }

  /** What the checkpoint remembers: nothing after a run in which nothing failed; else
      every file whose ingest was due and did not fail, at its current version, and for all
      others what it remembered before. */
  lemma CheckpointOutcome(env: Env, d: Disk, w: World, s: Source)
    requires Scanned(env, d)
    ensures var done := Run(env, d, w).done;
      if Clean(env, d, w) then done == map[]
      else if s in d.hash && ToIngest(env, d, w.rows, s) && env.ingestFails(s).None? then s in done && done[s] == d.hash[s]
      else SameEntry(w.done, done, s)
  {
    EntriesAfter(env, d, w.rows, d.order, World(DeletePhase(env, w.rows, ToDelete(env, d, w.rows), w.rows), w.done), s);
    hide IngestPhase, DeletePhase, ToDelete, Clean, ToIngest;
  }
}
