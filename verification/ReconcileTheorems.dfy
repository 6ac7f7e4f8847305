/** When a reconciled index mirrors the disk: exactly the pre-state condition, the
    effect on each source whatever happens to the others, and the two ways in
    which the code can miss. */
module ReconcileTheorems {
  import opened Common
  import opened Reconcile

  // ------------------------------------------------------------ what an index should hold

  ghost function RowsOf(rows: seq<Row>, s: Source): set<Row> {
    set r | r in rows && r.source == Some(s)
  }

  ghost function ChunkRows(env: Env, s: Source, h: Hash, i: nat, n: nat): set<Row> {
    set j: nat | i <= j < n :: Row(env.chunkId(s, j), Some(s), h)
  }

  /** Exactly the chunks of this content. */
  ghost function Expected(env: Env, s: Source, h: Hash): set<Row> {
    ChunkRows(env, s, h, 0, env.chunks(s, h))
  }

  /** The index holds, for every source, exactly the chunks of its current content. */
  ghost predicate Mirrors(env: Env, d: Disk, rows: seq<Row>) {
    forall s :: RowsOf(rows, s) == if s in d.hash then Expected(env, s, d.hash[s]) else {}
  }

  ghost predicate Injective(env: Env) {
    forall s, i, t, j :: env.chunkId(s, i) == env.chunkId(t, j) ==> s == t && i == j
  }

  /** Ids are unique, and a chunk id is only ever used for its own source. */
  ghost predicate WellKeyed(env: Env, rows: seq<Row>) {
    && (forall r, q :: r in rows && q in rows && r.id == q.id ==> r == q)
    && (forall r, s, i :: r in rows && r.id == env.chunkId(s, i) ==> r.source == Some(s))
  }

  // ------------------------------------------------------------ reading

  lemma {:induction false} SourcesMembers(rows: seq<Row>, s: Source)
    ensures s in Sources(rows) <==> RowsOf(rows, s) != {}
    decreases |rows|
  {
    if rows != [] {
      var before, r := rows[..|rows| - 1], rows[|rows| - 1];
      assert rows == before + [r];
      SourcesMembers(before, s);
      assert RowsOf(rows, s) == RowsOf(before, s) + if r.source == Some(s) then {r} else {};
    }
  }

  lemma {:induction false} IdsOfMembers(rows: seq<Row>, s: Source, id: Id)
    ensures id in IdsOf(rows, s) <==> exists r :: r in rows && r.source == Some(s) && r.id == id
    decreases |rows|
  {
    if rows != [] {
      IdsOfMembers(rows[1..], s, id);
      assert rows == [rows[0]] + rows[1..];
      if r :| r in rows && r.source == Some(s) && r.id == id { assert r == rows[0] || r in rows[1..]; }
      if r :| r in rows[1..] && r.source == Some(s) && r.id == id { assert r in rows; }
    }
  }

  lemma {:induction false} SelectMembers(env: Env, d: Disk, rows: seq<Row>, sources: seq<Source>, c: Class, s: Source)
    ensures s in Select(env, d, rows, sources, c) <==> s in sources && Classify(env, d, rows, s) == c
    decreases |sources|
  {
    if sources != [] { SelectMembers(env, d, rows, sources[1..], c, s); assert sources == [sources[0]] + sources[1..]; }
  }

  lemma ToDeleteMembers(env: Env, d: Disk, rows: seq<Row>, s: Source)
    ensures s in ToDelete(env, d, rows) <==> s in Sources(rows) && Classify(env, d, rows, s) != Unchanged
  {
    SelectMembers(env, d, rows, Sources(rows), Changed, s);
    SelectMembers(env, d, rows, Sources(rows), Removed, s);
    SelectMembers(env, d, rows, Sources(rows), Ignored, s);
  }

  // ------------------------------------------------------------ deleting

  lemma {:induction false} WithoutMembers(rows: seq<Row>, ids: seq<Id>, r: Row)
    ensures r in Without(rows, ids) <==> r in rows && r.id !in ids
    decreases |rows|
  {
    if rows != [] { WithoutMembers(rows[1..], ids, r); assert rows == [rows[0]] + rows[1..]; }
  }

  /** Batches that all succeed remove exactly the listed ids; batches that fail
      remove fewer. */
  lemma {:induction false} BatchesMembers(rows: seq<Row>, ids: seq<Id>, ok: nat -> bool, k: nat, r: Row)
    ensures r in AfterBatches(rows, ids, ok, k) ==> r in rows
    ensures r in rows && r.id !in ids ==> r in AfterBatches(rows, ids, ok, k)
    ensures AllBatches(ids, ok, k) && r in AfterBatches(rows, ids, ok, k) ==> r.id !in ids
    decreases |ids|
  {
    if ids != [] {
      var n := if |ids| < BatchSize then |ids| else BatchSize;
      var next := if ok(k) then Without(rows, ids[..n]) else rows;
      WithoutMembers(rows, ids[..n], r);
      BatchesMembers(next, ids[n..], ok, k + 1, r);
      assert ids == ids[..n] + ids[n..];
    }
  }

  lemma {:induction false} DeletePhaseMembers(env: Env, index: seq<Row>, list: seq<Source>, rows: seq<Row>, r: Row)
    requires WellKeyed(env, index) && forall q :: q in rows ==> q in index
    ensures var rows' := DeletePhase(env, index, list, rows);
      && (r in rows' ==> r in rows)
      && (r in rows && !(r.source.Some? && r.source.value in list) ==> r in rows')
      && (r in rows' && r.source.Some? && r.source.value in list ==> !DeleteSucceeds(env, index, r.source.value))
    decreases |list|
  {
    if list != [] {
      var s := list[0];
      var ids := IdsOf(index, s);
      var next := AfterBatches(rows, ids, (k: nat) => env.deleteOk(s, k), 0);
      forall q ensures q in next ==> q in rows { BatchesMembers(rows, ids, (k: nat) => env.deleteOk(s, k), 0, q); }
      BatchesMembers(rows, ids, (k: nat) => env.deleteOk(s, k), 0, r);
      IdsOfMembers(index, s, r.id);
      DeletePhaseMembers(env, index, list[1..], next, r);
      assert list == [s] + list[1..];
    }
  }

  // ------------------------------------------------------------ ingesting

  /** Ingesting one source keeps the index well keyed and every other source as it is. */
  lemma {:induction false} IngestElsewhere(env: Env, rows: seq<Row>, s: Source, h: Hash, i: nat, n: nat, t: Source)
    requires Injective(env) && WellKeyed(env, rows)
    ensures var rows' := Ingest(env, rows, s, h, i, n); WellKeyed(env, rows') && (t != s ==> RowsOf(rows', t) == RowsOf(rows, t))
    decreases n - i
  {
    hide WellKeyed, RowsOf, Injective, HasId;
    if i < n {
      var row := Row(env.chunkId(s, i), Some(s), h);
      var next := if HasId(rows, row.id) then rows else rows + [row];
      if next != rows {
        FreshRowKeyed(env, rows, row, s, i);
        FreshRowOf(rows, row, s, t);
      }
      IngestElsewhere(env, next, s, h, i + 1, n, t);
    }
  }

  ghost predicate NoIdsYet(env: Env, rows: seq<Row>, s: Source, i: nat, n: nat) {
    forall j :: i <= j < n ==> !HasId(rows, env.chunkId(s, j))
  }

  /** With none of its ids taken, every chunk is stored. */
  lemma {:induction false} IngestFills(env: Env, rows: seq<Row>, s: Source, h: Hash, i: nat, n: nat)
    requires Injective(env) && NoIdsYet(env, rows, s, i, n)
    ensures RowsOf(Ingest(env, rows, s, h, i, n), s) == RowsOf(rows, s) + ChunkRows(env, s, h, i, n)
    decreases n - i
  {
    if i < n {
      var row := Row(env.chunkId(s, i), Some(s), h);
      var next := rows + [row];
      assert !HasId(rows, row.id);
      hide NoIdsYet, RowsOf, ChunkRows, Injective, HasId;
      NextIdsFree(env, rows, row, s, i, n);
      IngestFills(env, next, s, h, i + 1, n);
      FreshRowOf(rows, row, s, s);
      FirstChunkRow(env, s, h, i, n);
    } else {
      assert ChunkRows(env, s, h, i, n) == {};
    }
  }

  lemma NextIdsFree(env: Env, rows: seq<Row>, row: Row, s: Source, i: nat, n: nat)
    requires Injective(env) && NoIdsYet(env, rows, s, i, n) && row.id == env.chunkId(s, i)
    ensures NoIdsYet(env, rows + [row], s, i + 1, n)
  {
    forall j | i + 1 <= j < n ensures !HasId(rows + [row], env.chunkId(s, j)) {
      assert !HasId(rows, env.chunkId(s, j));
      OtherIdsStay(env, rows, row, s, i, j);
    }
  }

  lemma IngestEffect(env: Env, rows: seq<Row>, s: Source, h: Hash, i: nat, n: nat)
    requires Injective(env) && WellKeyed(env, rows)
    ensures var rows' := Ingest(env, rows, s, h, i, n);
      && WellKeyed(env, rows')
      && (forall t :: t != s ==> RowsOf(rows', t) == RowsOf(rows, t))
      && (NoIdsYet(env, rows, s, i, n) ==> RowsOf(rows', s) == RowsOf(rows, s) + ChunkRows(env, s, h, i, n))
  {
    hide Ingest, WellKeyed, RowsOf, ChunkRows, NoIdsYet;
    IngestElsewhere(env, rows, s, h, i, n, s);
    forall t | t != s ensures RowsOf(Ingest(env, rows, s, h, i, n), t) == RowsOf(rows, t) { IngestElsewhere(env, rows, s, h, i, n, t); }
    if NoIdsYet(env, rows, s, i, n) { IngestFills(env, rows, s, h, i, n); }
  }

  lemma FreshRowOf(rows: seq<Row>, row: Row, s: Source, t: Source)
    requires row.source == Some(s)
    ensures RowsOf(rows + [row], t) == RowsOf(rows, t) + if t == s then {row} else {}
  {}

  lemma OtherIdsStay(env: Env, rows: seq<Row>, row: Row, s: Source, i: nat, j: nat)
    requires Injective(env) && row.id == env.chunkId(s, i) && i != j && !HasId(rows, env.chunkId(s, j))
    ensures !HasId(rows + [row], env.chunkId(s, j))
  {}

  lemma FirstChunkRow(env: Env, s: Source, h: Hash, i: nat, n: nat)
    requires i < n
    ensures ChunkRows(env, s, h, i, n) == {Row(env.chunkId(s, i), Some(s), h)} + ChunkRows(env, s, h, i + 1, n)
  {}

  lemma FreshRowKeyed(env: Env, rows: seq<Row>, row: Row, s: Source, i: nat)
    requires Injective(env) && WellKeyed(env, rows) && row.id == env.chunkId(s, i) && row.source == Some(s) && !HasId(rows, row.id)
    ensures WellKeyed(env, rows + [row])
  {
    forall r | r in rows ensures r.id != row.id { var k :| 0 <= k < |rows| && rows[k] == r; }
  }

  lemma IngestOneEffect(env: Env, w: World, s: Source, h: Hash)
    requires Injective(env) && WellKeyed(env, w.rows)
    ensures var w' := IngestOne(env, w, s, h);
      && WellKeyed(env, w'.rows)
      && (forall t :: t != s ==> RowsOf(w'.rows, t) == RowsOf(w.rows, t) && (t in w'.done <==> t in w.done) && (t in w.done ==> w'.done[t] == w.done[t]))
      && (RowsOf(w.rows, s) == {} && !IngestFailed(env, w.done, s, h) ==>
            RowsOf(w'.rows, s) == if s in w.done && w.done[s] == h then {} else Expected(env, s, h))
  {
    var n := env.chunks(s, h);
    IngestEffect(env, w.rows, s, h, 0, n);
    if env.ingestFails(s).Some? { IngestEffect(env, w.rows, s, h, 0, if env.ingestFails(s).value < n then env.ingestFails(s).value else n); }
    if RowsOf(w.rows, s) == {} {
      forall j: nat | j < n ensures !HasId(w.rows, env.chunkId(s, j)) {
        forall k | 0 <= k < |w.rows| ensures w.rows[k].id != env.chunkId(s, j) {
          var r := w.rows[k];
          assert r in w.rows && (r.source == Some(s) ==> r in RowsOf(w.rows, s));
        }
      }
    }
  }

  lemma {:induction false} IngestPhaseEffect(env: Env, d: Disk, index: seq<Row>, order: seq<Source>, w: World, s: Source)
    requires Injective(env) && WellKeyed(env, w.rows) && forall t :: t in order ==> t in d.hash
    requires forall i, j :: 0 <= i < j < |order| ==> order[i] != order[j]
    ensures var w' := IngestPhase(env, d, index, order, w);
      if s in order && ToIngest(env, d, index, s) then
        RowsOf(w.rows, s) == {} && !IngestFailed(env, w.done, s, d.hash[s]) ==>
          RowsOf(w'.rows, s) == if s in w.done && w.done[s] == d.hash[s] then {} else Expected(env, s, d.hash[s])
      else RowsOf(w'.rows, s) == RowsOf(w.rows, s)
    decreases |order|
  {
    if order != [] {
      var t := order[0];
      var next := if ToIngest(env, d, index, t) then IngestOne(env, w, t, d.hash[t]) else w;
      IngestOneEffect(env, w, t, d.hash[t]);
      assert order == [t] + order[1..];
      IngestPhaseEffect(env, d, index, order[1..], next, s);
    }
  }

  // ------------------------------------------------------------ one source

  /** The operations on this very source succeed. */
  ghost predicate SourceClean(env: Env, d: Disk, w: World, s: Source) {
    && (s in ToDelete(env, d, w.rows) ==> DeleteSucceeds(env, w.rows, s))
    && (s in d.hash && ToIngest(env, d, w.rows, s) ==> !IngestFailed(env, w.done, s, d.hash[s]))
  }

  ghost predicate Skipped(d: Disk, w: World, s: Source)
    requires s in d.hash
  {
    s in w.done && w.done[s] == d.hash[s]
  }

  /** An indexed source whose recorded hashes say it is current. */
  ghost predicate Kept(env: Env, d: Disk, w: World, s: Source) {
    s in Sources(w.rows) && Classify(env, d, w.rows, s) == Unchanged
  }

  /** What a reconcile leaves of one source, whatever fails elsewhere: a kept source
      keeps its rows, a checkpointed one has none, any other file has exactly its
      current chunks, and a source not on disk has nothing. */
  lemma SourceOutcome(env: Env, d: Disk, w: World, s: Source)
    requires Scanned(env, d) && Injective(env) && WellKeyed(env, w.rows) && SourceClean(env, d, w, s)
    ensures RowsOf(Run(env, d, w).rows, s) ==
      if s !in d.hash then {}
      else if Kept(env, d, w, s) then RowsOf(w.rows, s)
      else if Skipped(d, w, s) then {}
      else Expected(env, s, d.hash[s])
  {
    var list := ToDelete(env, d, w.rows);
    var rows := DeletePhase(env, w.rows, list, w.rows);
    hide DeletePhase, IngestPhase, ToDelete, Clean, Sources, Expected, IngestFailed;
    SourcesMembers(w.rows, s);
    ToDeleteMembers(env, d, w.rows, s);
    forall r ensures r in rows ==> r in w.rows { DeletePhaseMembers(env, w.rows, list, w.rows, r); }
    forall r: Row | r.source == Some(s) ensures r in rows <==> r in w.rows && s !in list {
      DeletePhaseMembers(env, w.rows, list, w.rows, r);
    }
    assert WellKeyed(env, rows);
    assert RowsOf(rows, s) == if s in list then {} else RowsOf(w.rows, s);
    IngestPhaseEffect(env, d, w.rows, d.order, World(rows, w.done), s);
  }

  // ------------------------------------------------------------ the mirror

  lemma CleanEverywhere(env: Env, d: Disk, w: World, s: Source)
    requires Clean(env, d, w)
    ensures SourceClean(env, d, w, s)
  {
    if s in ToDelete(env, d, w.rows) { var i :| 0 <= i < |ToDelete(env, d, w.rows)| && ToDelete(env, d, w.rows)[i] == s; }
  }

  /** Every source the hashes call current holds all its chunks. */
  ghost predicate KeptAreWhole(env: Env, d: Disk, w: World) {
    forall s :: s in d.hash && Kept(env, d, w, s) ==> RowsOf(w.rows, s) == Expected(env, s, d.hash[s])
  }

  /** Every file the checkpoint skips, but that is not kept, yields no chunks. */
  ghost predicate SkippedAreEmpty(env: Env, d: Disk, w: World) {
    forall s :: s in d.hash && !Kept(env, d, w, s) && Skipped(d, w, s) ==> env.chunks(s, d.hash[s]) == 0
  }

  lemma ExpectedEmptyIff(env: Env, s: Source, h: Hash)
    ensures Expected(env, s, h) == {} <==> env.chunks(s, h) == 0
  {
    if env.chunks(s, h) > 0 { assert Row(env.chunkId(s, 0), Some(s), h) in Expected(env, s, h); }
  }

  /** After a run in which nothing failed, the index mirrors the disk exactly when
      the kept sources were whole and the skipped files are empty. */
  lemma MirrorsIff(env: Env, d: Disk, w: World)
    requires Scanned(env, d) && Injective(env) && WellKeyed(env, w.rows) && Clean(env, d, w)
    ensures Mirrors(env, d, Run(env, d, w).rows) <==> KeptAreWhole(env, d, w) && SkippedAreEmpty(env, d, w)
    ensures Run(env, d, w).done == map[]
  {
    var rows := Run(env, d, w).rows;
    forall s ensures RowsOf(rows, s) ==
      if s !in d.hash then {} else if Kept(env, d, w, s) then RowsOf(w.rows, s)
      else if Skipped(d, w, s) then {} else Expected(env, s, d.hash[s])
    {
      CleanEverywhere(env, d, w, s);
      SourceOutcome(env, d, w, s);
      if s in d.hash { ExpectedEmptyIff(env, s, d.hash[s]); }
    }
    forall s | s in d.hash ensures Expected(env, s, d.hash[s]) == {} <==> env.chunks(s, d.hash[s]) == 0 { ExpectedEmptyIff(env, s, d.hash[s]); }
    if Mirrors(env, d, rows) {
      forall s | s in d.hash && Kept(env, d, w, s) ensures RowsOf(w.rows, s) == Expected(env, s, d.hash[s]) {
        assert RowsOf(rows, s) == Expected(env, s, d.hash[s]);
      }
      forall s | s in d.hash && !Kept(env, d, w, s) && Skipped(d, w, s) ensures env.chunks(s, d.hash[s]) == 0 {
        assert RowsOf(rows, s) == Expected(env, s, d.hash[s]);
      }
    }
  }

  /** A checkpoint is sound when each completed file and hash has exactly its chunks
      in the index. */
  ghost predicate SoundCheckpoint(env: Env, w: World) {
    forall s :: s in w.done ==> RowsOf(w.rows, s) == Expected(env, s, w.done[s])
  }

  lemma HashesOfWhole(env: Env, rows: seq<Row>, s: Source, h: Hash)
    requires RowsOf(rows, s) <= Expected(env, s, h)
    ensures RowsOf(rows, s) != {} ==> HashesOf(rows, s) == {h}
  {
    assert forall r :: r in rows && r.source == Some(s) ==> r in RowsOf(rows, s);
    if RowsOf(rows, s) != {} { var r :| r in RowsOf(rows, s); }
  }

  lemma SoundCheckpointSkipsOnlyEmpty(env: Env, d: Disk, w: World)
    requires Scanned(env, d) && SoundCheckpoint(env, w)
    ensures SkippedAreEmpty(env, d, w)
  {
    forall s | s in d.hash && !Kept(env, d, w, s) && Skipped(d, w, s) ensures env.chunks(s, d.hash[s]) == 0 {
      var h := d.hash[s];
      SourcesMembers(w.rows, s);
      ExpectedEmptyIff(env, s, h);
      HashesOfWhole(env, w.rows, s, h);
    }
  }

  /** With a sound checkpoint and whole kept sources, a clean run mirrors the disk. */
  lemma SoundCheckpointMirrors(env: Env, d: Disk, w: World)
    requires Scanned(env, d) && Injective(env) && WellKeyed(env, w.rows) && Clean(env, d, w)
    requires SoundCheckpoint(env, w) && KeptAreWhole(env, d, w)
    ensures Mirrors(env, d, Run(env, d, w).rows)
  {
    SoundCheckpointSkipsOnlyEmpty(env, d, w);
    MirrorsIff(env, d, w);
  }

  // ------------------------------------------------------------ running again

  lemma NoMembers(list: seq<Source>)
    ensures list == [] || exists s :: s in list
  {
    if list != [] { assert list[0] in list; }
  }

  lemma MirroredNeedsNothing(env: Env, d: Disk, rows: seq<Row>)
    requires Scanned(env, d) && Mirrors(env, d, rows)
    ensures ToDelete(env, d, rows) == []
    ensures forall s :: s in d.hash && ToIngest(env, d, rows, s) ==> env.chunks(s, d.hash[s]) == 0
  {
    forall s ensures s !in ToDelete(env, d, rows) && (s in d.hash && ToIngest(env, d, rows, s) ==> env.chunks(s, d.hash[s]) == 0) {
      ToDeleteMembers(env, d, rows, s);
      SourcesMembers(rows, s);
      assert RowsOf(rows, s) == if s in d.hash then Expected(env, s, d.hash[s]) else {};
      if s in d.hash {
        ExpectedEmptyIff(env, s, d.hash[s]);
        HashesOfWhole(env, rows, s, d.hash[s]);
      }
    }
    NoMembers(ToDelete(env, d, rows));
  }

  lemma {:induction false} NothingToIngest(env: Env, d: Disk, index: seq<Row>, order: seq<Source>, w: World)
    requires forall s :: s in order ==> s in d.hash && (ToIngest(env, d, index, s) ==> env.chunks(s, d.hash[s]) == 0)
    ensures IngestPhase(env, d, index, order, w).rows == w.rows
    decreases |order|
  {
    if order != [] {
      assert order == [order[0]] + order[1..];
      assert order[0] in order;
      NothingToIngest(env, d, index, order[1..], if ToIngest(env, d, index, order[0]) then IngestOne(env, w, order[0], d.hash[order[0]]) else w);
    }
  }

  /** Reconciling a mirrored index deletes nothing and stores nothing: the rows stay
      as they are, in the same order. */
  lemma SecondRunDoesNothing(env: Env, d: Disk, w: World)
    requires Scanned(env, d) && Mirrors(env, d, w.rows)
    ensures Run(env, d, w).rows == w.rows && ToDelete(env, d, w.rows) == []
  {
    MirroredNeedsNothing(env, d, w.rows);
    assert DeletePhase(env, w.rows, [], w.rows) == w.rows;
    NothingToIngest(env, d, w.rows, d.order, World(w.rows, w.done));
  }

  // ------------------------------------------------------------ the two misses

  /** A file whose ingest stopped part way, with the right hash on what it stored,
      is kept as it is by every later run. */
  lemma PartialFileIsNeverRepaired(env: Env, d: Disk, w: World, s: Source)
    requires Scanned(env, d) && Injective(env) && WellKeyed(env, w.rows)
    requires s in d.hash && 0 < |RowsOf(w.rows, s)| && RowsOf(w.rows, s) < Expected(env, s, d.hash[s])
    ensures RowsOf(Run(env, d, w).rows, s) == RowsOf(w.rows, s) && !Mirrors(env, d, Run(env, d, w).rows)
  {
    SourcesMembers(w.rows, s);
    HashesOfWhole(env, w.rows, s, d.hash[s]);
    ToDeleteMembers(env, d, w.rows, s);
    SourceOutcome(env, d, w, s);
  }

  /** A checkpoint entry that outlived the file: restored with the same content, the
      file is skipped and stays out of the index. */
  lemma StaleCheckpointLosesFile(env: Env, d: Disk, w: World, s: Source)
    requires Scanned(env, d) && Injective(env) && WellKeyed(env, w.rows)
    requires s in d.hash && RowsOf(w.rows, s) == {} && Skipped(d, w, s) && env.chunks(s, d.hash[s]) > 0
    ensures RowsOf(Run(env, d, w).rows, s) == {} && !Mirrors(env, d, Run(env, d, w).rows)
  {
    SourcesMembers(w.rows, s);
    ToDeleteMembers(env, d, w.rows, s);
    SourceOutcome(env, d, w, s);
    ExpectedEmptyIff(env, s, d.hash[s]);
  }

  /** How such an entry comes about: when a run is not clean, a removed source that
      was completed keeps its entry though its rows are gone. */
  lemma RemovedSourceKeepsEntry(env: Env, d: Disk, w: World, s: Source)
    requires Scanned(env, d) && Injective(env) && WellKeyed(env, w.rows) && !Clean(env, d, w) && SourceClean(env, d, w, s)
    requires s !in d.hash && s in w.done
    ensures RowsOf(Run(env, d, w).rows, s) == {} && s in Run(env, d, w).done && Run(env, d, w).done[s] == w.done[s]
  {
    SourceOutcome(env, d, w, s);
    EntryStays(env, d, w.rows, d.order, World(DeletePhase(env, w.rows, ToDelete(env, d, w.rows), w.rows), w.done), s);
  }

  lemma {:induction false} EntryStays(env: Env, d: Disk, index: seq<Row>, order: seq<Source>, w: World, s: Source)
    requires (forall t :: t in order ==> t in d.hash) && s !in d.hash && s in w.done
    ensures var w' := IngestPhase(env, d, index, order, w); s in w'.done && w'.done[s] == w.done[s]
    decreases |order|
  {
    if order != [] {
      assert order == [order[0]] + order[1..];
      EntryStays(env, d, index, order[1..], if ToIngest(env, d, index, order[0]) then IngestOne(env, w, order[0], d.hash[order[0]]) else w, s);
    }
  }
}
