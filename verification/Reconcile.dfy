/** Reconciliation of the vector index with the disk: read the whole index in
    pages, classify every source, delete stale chunks in bounded batches, ingest
    new and changed files past a checkpoint.

    Deletes and ingests may fail; `Env` says which.  A chunk row keeps its id, the
    source it came from (when recorded) and the content hash of that file. */
module Reconcile {
  import opened Common

  type Source = string
  type Hash = string

  datatype Row = Row(id: Id, source: Option<Source>, hash: Hash)

  const PageSize: nat := 5000
  const BatchSize: nat := 500

  /** The scanned files in sorted order, and their current hashes. */
  datatype Disk = Disk(order: seq<Source>, hash: map<Source, Hash>)

  datatype Env = Env(
    chunkId: (Source, nat) -> Id,
    chunks: (Source, Hash) -> nat,            // how many chunks a file yields
    ignored: Source -> bool,
    deleteOk: (Source, nat) -> bool,          // outcome of each delete batch of a source
    ingestFails: Source -> Option<nat>)       // chunks stored before an ingest raises

  datatype World = World(rows: seq<Row>, done: map<Source, Hash>)

  ghost predicate Scanned(env: Env, d: Disk) {
    && (forall s :: s in d.order <==> s in d.hash)
    && (forall i, j :: 0 <= i < j < |d.order| ==> d.order[i] != d.order[j])
    && (forall s :: s in d.hash ==> d.hash[s] != "" && !env.ignored(s))
  }

  // ------------------------------------------------------------ reading the index

  function IdsOf(rows: seq<Row>, s: Source): seq<Id> {
    if rows == [] then [] else (if rows[0].source == Some(s) then [rows[0].id] else []) + IdsOf(rows[1..], s)
  }

  function HashesOf(rows: seq<Row>, s: Source): set<Hash> {
    set r | r in rows && r.source == Some(s) :: r.hash
  }

  /** The sources of the index in order of first appearance. */
  function Sources(rows: seq<Row>): seq<Source> {
    if rows == [] then []
    else
      var before := Sources(rows[..|rows| - 1]);
      var r := rows[|rows| - 1];
      if r.source.None? || r.source.value in before then before else before + [r.source.value]
  }

  datatype Class = Ignored | Removed | Changed | Unchanged

  function Classify(env: Env, d: Disk, rows: seq<Row>, s: Source): Class {
    if env.ignored(s) then Ignored
    else if s !in d.hash then Removed
    else if HashesOf(rows, s) == {d.hash[s]} && d.hash[s] != "" then Unchanged
    else Changed
  }

  function Select(env: Env, d: Disk, rows: seq<Row>, sources: seq<Source>, c: Class): seq<Source> {
    if sources == [] then []
    else (if Classify(env, d, rows, sources[0]) == c then [sources[0]] else []) + Select(env, d, rows, sources[1..], c)
  }

  // ------------------------------------------------------------ deleting and ingesting

  function Without(rows: seq<Row>, ids: seq<Id>): seq<Row> {
    if rows == [] then [] else (if rows[0].id in ids then [] else [rows[0]]) + Without(rows[1..], ids)
  }

  /** The rows left after the batches from `k` on. */
  function AfterBatches(rows: seq<Row>, ids: seq<Id>, ok: nat -> bool, k: nat): seq<Row>
    decreases |ids|
  {
    if ids == [] then rows
    else
      var n := if |ids| < BatchSize then |ids| else BatchSize;
      AfterBatches(if ok(k) then Without(rows, ids[..n]) else rows, ids[n..], ok, k + 1)
  }

  predicate AllBatches(ids: seq<Id>, ok: nat -> bool, k: nat)
    decreases |ids|
  {
    ids == [] || (ok(k) && AllBatches(ids[if |ids| < BatchSize then |ids| else BatchSize..], ok, k + 1))
  }

  predicate DeleteSucceeds(env: Env, index: seq<Row>, s: Source) {
    AllBatches(IdsOf(index, s), (k: nat) => env.deleteOk(s, k), 0)
  }

  function DeleteOne(env: Env, index: seq<Row>, s: Source, rows: seq<Row>): seq<Row> {
    AfterBatches(rows, IdsOf(index, s), (k: nat) => env.deleteOk(s, k), 0)
  }

  /** Delete the listed sources, by the ids the index held when it was read. */
  function DeletePhase(env: Env, index: seq<Row>, list: seq<Source>, rows: seq<Row>): seq<Row>
    decreases |list|
  {
    if list == [] then rows
    else DeletePhase(env, index, list[1..], DeleteOne(env, index, list[0], rows))
  }

  predicate HasId(rows: seq<Row>, id: Id) {
    exists k :: 0 <= k < |rows| && rows[k].id == id
  }

  /** Store chunks `i..n` of a file, skipping ids the index already holds. */
  function Ingest(env: Env, rows: seq<Row>, s: Source, h: Hash, i: nat, n: nat): seq<Row>
    decreases n - i
  {
    if i >= n then rows
    else Ingest(env, if HasId(rows, env.chunkId(s, i)) then rows else rows + [Row(env.chunkId(s, i), Some(s), h)], s, h, i + 1, n)
  }

  function IngestOne(env: Env, w: World, s: Source, h: Hash): World {
    if s in w.done && w.done[s] == h then w
    else
      var n := env.chunks(s, h);
      match env.ingestFails(s)
      case None => World(Ingest(env, w.rows, s, h, 0, n), w.done[s := h])
      case Some(k) => w.(rows := Ingest(env, w.rows, s, h, 0, if k < n then k else n))
  }

  predicate IngestFailed(env: Env, done: map<Source, Hash>, s: Source, h: Hash) {
    !(s in done && done[s] == h) && env.ingestFails(s).Some?
  }

  /** Sources whose chunks are to be (re)made: new files and emptied changed files. */
  predicate ToIngest(env: Env, d: Disk, index: seq<Row>, s: Source)
    requires s in d.hash
  {
    s !in Sources(index) || (Classify(env, d, index, s) == Changed && DeleteSucceeds(env, index, s))
  }

  function IngestPhase(env: Env, d: Disk, index: seq<Row>, order: seq<Source>, w: World): World
    requires forall s :: s in order ==> s in d.hash
    decreases |order|
  {
    if order == [] then w
    else IngestPhase(env, d, index, order[1..], if ToIngest(env, d, index, order[0]) then IngestOne(env, w, order[0], d.hash[order[0]]) else w)
  }

  function ToDelete(env: Env, d: Disk, index: seq<Row>): seq<Source> {
    var sources := Sources(index);
    Select(env, d, index, sources, Changed) + Select(env, d, index, sources, Removed) + Select(env, d, index, sources, Ignored)
  }

  /** Nothing failed: every delete succeeded and every attempted ingest did. */
  ghost predicate Clean(env: Env, d: Disk, w: World) {
    && (forall i :: 0 <= i < |ToDelete(env, d, w.rows)| ==> DeleteSucceeds(env, w.rows, ToDelete(env, d, w.rows)[i]))
    && (forall s :: s in d.hash && ToIngest(env, d, w.rows, s) ==> !IngestFailed(env, w.done, s, d.hash[s]))
  }

  /** One reconcile: delete, ingest, and forget the checkpoint after a clean run. */
  ghost function Run(env: Env, d: Disk, w: World): World
    requires Scanned(env, d)
  {
    var rows := DeletePhase(env, w.rows, ToDelete(env, d, w.rows), w.rows);
    var w' := IngestPhase(env, d, w.rows, d.order, World(rows, w.done));
    if Clean(env, d, w) then w'.(done := map[]) else w'
  }
}
