/** Reconciles killed anywhere, over disks that change between them: what every index
    that can come about looks like, and when the next clean reconcile repairs it.
    `life` counts the delete batches, stored chunks and checkpoint writes a run still
    lives to make. */
module ReconcileCrash {
  import opened Common
  import opened Reconcile
  import opened ReconcileTheorems
  import opened StoreBuild

  // ------------------------------------------------------------ a run that may be killed

  function CutBatches(rows: seq<Row>, ids: seq<Id>, ok: nat -> bool, k: nat, life: nat): (seq<Row>, nat)
    decreases |ids|
  {
    if ids == [] || life == 0 then (rows, life)
    else
      var n := if |ids| < BatchSize then |ids| else BatchSize;
      CutBatches(if ok(k) then Reconcile.Without(rows, ids[..n]) else rows, ids[n..], ok, k + 1, life - 1)
  }

  function CutDelete(env: Env, index: seq<Row>, list: seq<Source>, p: Process): Process
    decreases |list|
  {
    if list == [] then p
    else
      var (rows, life) := CutBatches(p.rows, IdsOf(index, list[0]), (k: nat) => env.deleteOk(list[0], k), 0, p.life);
      CutDelete(env, index, list[1..], p.(rows := rows, life := life))
  }

  function CutIngest(env: Env, d: Disk, index: seq<Row>, order: seq<Source>, p: Process): Process
    requires forall s :: s in order ==> s in d.hash
    decreases |order|
  {
    if order == [] then p
    else CutIngest(env, d, index, order[1..], if ToIngest(env, d, index, order[0]) then BuildOne(env, p, order[0], d.hash[order[0]]) else p)
  }

  function Emptied(env: Env, d: Disk, p: Process): Process {
    CutDelete(env, p.rows, ToDelete(env, d, p.rows), p)
  }

  ghost function CutRun(env: Env, d: Disk, p: Process): Process
    requires Scanned(env, d)
  {
    var q := CutIngest(env, d, p.rows, d.order, Emptied(env, d, p));
    if Clean(env, d, State(p)) && q.life > 0 then q.(done := map[], life := q.life - 1) else q
  }

  function State(p: Process): World { World(p.rows, p.done) }

  // ------------------------------------------------------------ a run that is not killed

  lemma {:induction false} LivingBatches(rows: seq<Row>, ids: seq<Id>, ok: nat -> bool, k: nat, life: nat)
    ensures var c := CutBatches(rows, ids, ok, k, life); c.1 <= life && (c.1 > 0 ==> c.0 == AfterBatches(rows, ids, ok, k))
    decreases |ids|
  {
    if ids != [] && life > 0 {
      var n := if |ids| < BatchSize then |ids| else BatchSize;
      LivingBatches(if ok(k) then Reconcile.Without(rows, ids[..n]) else rows, ids[n..], ok, k + 1, life - 1);
    }
  }

  lemma {:induction false} LivingDelete(env: Env, index: seq<Row>, list: seq<Source>, p: Process)
    ensures var q := CutDelete(env, index, list, p);
      q.done == p.done && q.life <= p.life && (q.life > 0 ==> q.rows == DeletePhase(env, index, list, p.rows))
    decreases |list|
  {
    if list != [] {
      var ok := (k: nat) => env.deleteOk(list[0], k);
      LivingBatches(p.rows, IdsOf(index, list[0]), ok, 0, p.life);
      var c := CutBatches(p.rows, IdsOf(index, list[0]), ok, 0, p.life);
      LivingDelete(env, index, list[1..], p.(rows := c.0, life := c.1));
    }
  }

  lemma {:induction false} LivingStore(env: Env, p: Process, s: Source, h: Hash, i: nat, n: nat)
    ensures var q := Store(env, p, s, h, i, n);
      q.done == p.done && q.life <= p.life && (q.life > 0 ==> q.rows == Ingest(env, p.rows, s, h, i, n))
    decreases n - i
  {
    if i < n && p.life > 0 {
      LivingStore(env, if HasId(p.rows, env.chunkId(s, i)) then p
                       else p.(rows := p.rows + [Row(env.chunkId(s, i), Some(s), h)], life := p.life - 1), s, h, i + 1, n);
    }
  }

  lemma LivingBuildOne(env: Env, p: Process, s: Source, h: Hash)
    ensures var q := BuildOne(env, p, s, h); q.life <= p.life && (q.life > 0 ==> State(q) == IngestOne(env, State(p), s, h))
  {
    var n := env.chunks(s, h);
    LivingStore(env, p, s, h, 0, n);
    if env.ingestFails(s).Some? { LivingStore(env, p, s, h, 0, if env.ingestFails(s).value < n then env.ingestFails(s).value else n); }
  }

  lemma {:induction false} LivingIngest(env: Env, d: Disk, index: seq<Row>, order: seq<Source>, p: Process)
    requires forall s :: s in order ==> s in d.hash
    ensures var q := CutIngest(env, d, index, order, p);
      q.life <= p.life && (q.life > 0 ==> State(q) == IngestPhase(env, d, index, order, State(p)))
    decreases |order|
  {
    if order != [] {
      LivingBuildOne(env, p, order[0], d.hash[order[0]]);
      LivingIngest(env, d, index, order[1..], if ToIngest(env, d, index, order[0]) then BuildOne(env, p, order[0], d.hash[order[0]]) else p);
    }
  }

  /** A run that lives through its last write is the run the other theorems are about. */
  lemma SurvivedRunIsRun(env: Env, d: Disk, p: Process)
    requires Scanned(env, d) && CutRun(env, d, p).life > 0
    ensures State(CutRun(env, d, p)) == Reconcile.Run(env, d, State(p))
  {
    LivingDelete(env, p.rows, ToDelete(env, d, p.rows), p);
    LivingIngest(env, d, p.rows, d.order, Emptied(env, d, p));
  }

  // ------------------------------------------------------------ what every crash state keeps

  /** Every row is a chunk of some version of its file, and no id is taken twice. */
  ghost predicate Chunky(env: Env, rows: seq<Row>) {
    && (forall r :: r in rows ==> IsChunk(env, r))
    && (forall r, q :: r in rows && q in rows && r.id == q.id ==> r == q)
  }

  lemma ChunkyIsKeyed(env: Env, rows: seq<Row>)
    requires Injective(env) && Chunky(env, rows)
    ensures WellKeyed(env, rows)
  {
    forall r, s, i | r in rows && r.id == env.chunkId(s, i) ensures r.source == Some(s) {
      assert IsChunk(env, r);
      var t, j: nat :| j < env.chunks(t, r.hash) && r == Row(env.chunkId(t, j), Some(t), r.hash);
    }
  }

  lemma FewerStaysChunky(env: Env, rows: seq<Row>, rows': seq<Row>)
    requires Chunky(env, rows) && forall r :: r in rows' ==> r in rows
    ensures Chunky(env, rows')
  {}

  lemma {:induction false} CutBatchesMembers(rows: seq<Row>, ids: seq<Id>, ok: nat -> bool, k: nat, life: nat, r: Row)
    ensures var c := CutBatches(rows, ids, ok, k, life).0; (r in c ==> r in rows) && (r in rows && r.id !in ids ==> r in c)
    decreases |ids|
  {
    if ids != [] && life > 0 {
      var n := if |ids| < BatchSize then |ids| else BatchSize;
      ReconcileTheorems.WithoutMembers(rows, ids[..n], r);
      assert ids == ids[..n] + ids[n..];
      CutBatchesMembers(if ok(k) then Reconcile.Without(rows, ids[..n]) else rows, ids[n..], ok, k + 1, life - 1, r);
    }
  }

  lemma {:induction false} CutDeleteMembers(env: Env, index: seq<Row>, list: seq<Source>, p: Process, r: Row)
    requires WellKeyed(env, index) && forall q :: q in p.rows ==> q in index
    ensures var rows := CutDelete(env, index, list, p).rows;
      (r in rows ==> r in p.rows) && (r in p.rows && !(r.source.Some? && r.source.value in list) ==> r in rows)
    decreases |list|
  {
    if list != [] {
      var ok := (k: nat) => env.deleteOk(list[0], k);
      var ids := IdsOf(index, list[0]);
      var c := CutBatches(p.rows, ids, ok, 0, p.life);
      forall q ensures q in c.0 ==> q in p.rows { CutBatchesMembers(p.rows, ids, ok, 0, p.life, q); }
      CutBatchesMembers(p.rows, ids, ok, 0, p.life, r);
      IdsOfMembers(index, list[0], r.id);
      CutDeleteMembers(env, index, list[1..], p.(rows := c.0, life := c.1), r);
      assert list == [list[0]] + list[1..];
    }
  }

  /** Storing chunks of one file, wherever it stops. */
  lemma {:induction false} StoreEffect(env: Env, p: Process, s: Source, h: Hash, i: nat, n: nat)
    requires Injective(env) && Chunky(env, p.rows) && n <= env.chunks(s, h)
    ensures var q := Store(env, p, s, h, i, n);
      Chunky(env, q.rows) && forall t :: t != s ==> RowsOf(q.rows, t) == RowsOf(p.rows, t)
    decreases n - i
  {
    if i < n && p.life > 0 {
      var row := Row(env.chunkId(s, i), Some(s), h);
      var next := if HasId(p.rows, row.id) then p else p.(rows := p.rows + [row], life := p.life - 1);
      if next != p {
        MoreStaysChunky(env, p.rows, row, s, i);
        forall t | t != s ensures RowsOf(next.rows, t) == RowsOf(p.rows, t) { FreshRowOf(p.rows, row, s, t); }
      }
      hide Chunky, RowsOf, HasId;
      StoreEffect(env, next, s, h, i + 1, n);
    }
  }

  lemma MoreStaysChunky(env: Env, rows: seq<Row>, row: Row, s: Source, i: nat)
    requires Chunky(env, rows) && !HasId(rows, row.id) && i < env.chunks(s, row.hash) && row == Row(env.chunkId(s, i), Some(s), row.hash)
    ensures Chunky(env, rows + [row])
  {
    assert IsChunk(env, row);
    forall r | r in rows ensures r.id != row.id { var k :| 0 <= k < |rows| && rows[k] == r; }
  }

  lemma FreeOfIds(env: Env, rows: seq<Row>, s: Source, n: nat)
    requires Injective(env) && Chunky(env, rows) && RowsOf(rows, s) == {}
    ensures NoIdsYet(env, rows, s, 0, n)
  {
    ChunkyIsKeyed(env, rows);
    forall j: nat, k | j < n && 0 <= k < |rows| ensures rows[k].id != env.chunkId(s, j) {
      assert rows[k] in rows && rows[k] !in RowsOf(rows, s);
    }
  }

  /** Every entry has exactly its chunks in the index. */
  ghost predicate Backed(env: Env, p: Process) {
    SoundCheckpoint(env, State(p))
  }

  /** One file: other files are left alone; a file that had no rows and no entry is
      entered only with all its chunks in place. */
  lemma BuildOneEffect(env: Env, p: Process, s: Source, h: Hash)
    requires Injective(env) && Chunky(env, p.rows)
    ensures var q := BuildOne(env, p, s, h);
      && Chunky(env, q.rows) && (forall t :: t != s ==> RowsOf(q.rows, t) == RowsOf(p.rows, t) && SameCheckpoint(p.done, q.done, t))
      && (RowsOf(p.rows, s) == {} && s !in p.done && s in q.done ==> q.done[s] == h && RowsOf(q.rows, s) == Expected(env, s, h))
      && (p.life == 0 ==> q == p)
  {
    var n := env.chunks(s, h);
    StoreEffect(env, p, s, h, 0, n);
    LivingStore(env, p, s, h, 0, n);
    if env.ingestFails(s).Some? {
      var m := if env.ingestFails(s).value < n then env.ingestFails(s).value else n;
      StoreEffect(env, p, s, h, 0, m);
      LivingStore(env, p, s, h, 0, m);
    }
    if RowsOf(p.rows, s) == {} {
      FreeOfIds(env, p.rows, s, n);
      IngestFills(env, p.rows, s, h, 0, n);
    }
  }

  lemma {:induction false} IngestKeepsChunky(env: Env, d: Disk, index: seq<Row>, order: seq<Source>, p: Process)
    requires Injective(env) && Chunky(env, p.rows) && forall s :: s in order ==> s in d.hash
    ensures Chunky(env, CutIngest(env, d, index, order, p).rows)
    decreases |order|
  {
    if order != [] {
      BuildOneEffect(env, p, order[0], d.hash[order[0]]);
      hide Chunky, BuildOne, ToIngest;
      IngestKeepsChunky(env, d, index, order[1..], if ToIngest(env, d, index, order[0]) then BuildOne(env, p, order[0], d.hash[order[0]]) else p);
    }
  }

  lemma EmptiedKeepsChunky(env: Env, d: Disk, p: Process)
    requires Injective(env) && Chunky(env, p.rows)
    ensures Chunky(env, Emptied(env, d, p).rows) && forall r :: r in Emptied(env, d, p).rows ==> r in p.rows
  {
    ChunkyIsKeyed(env, p.rows);
    forall r | r in Emptied(env, d, p).rows ensures r in p.rows { CutDeleteMembers(env, p.rows, ToDelete(env, d, p.rows), p, r); }
    FewerStaysChunky(env, p.rows, Emptied(env, d, p).rows);
  }

  lemma CutRunKeepsChunky(env: Env, d: Disk, p: Process)
    requires Scanned(env, d) && Injective(env) && Chunky(env, p.rows)
    ensures Chunky(env, CutRun(env, d, p).rows)
  {
    EmptiedKeepsChunky(env, d, p);
    IngestKeepsChunky(env, d, p.rows, d.order, Emptied(env, d, p));
  }

  // ------------------------------------------------------------ the checkpoint of one interrupted run

  /** What is about to be stored has no rows. */
  lemma AboutToBeStored(env: Env, d: Disk, p: Process, s: Source)
    requires Injective(env) && Chunky(env, p.rows) && s in d.hash && ToIngest(env, d, p.rows, s) && Emptied(env, d, p).life > 0
    ensures RowsOf(Emptied(env, d, p).rows, s) == {}
  {
    var list := ToDelete(env, d, p.rows);
    ChunkyIsKeyed(env, p.rows);
    LivingDelete(env, p.rows, list, p);
    SourcesMembers(p.rows, s);
    ToDeleteMembers(env, d, p.rows, s);
    forall r: Row | r.source == Some(s) ensures r !in Emptied(env, d, p).rows {
      DeletePhaseMembers(env, p.rows, list, p.rows, r);
      assert r in p.rows ==> r in RowsOf(p.rows, s);
    }
  }

  /** The files still to be visited have no entry, and those to be stored no rows. */
  ghost predicate Untouched(env: Env, d: Disk, index: seq<Row>, order: seq<Source>, p: Process)
    requires forall s :: s in order ==> s in d.hash
  {
    && (forall i, j :: 0 <= i < j < |order| ==> order[i] != order[j])
    && (forall s :: s in order ==> s !in p.done)
    && (p.life > 0 ==> forall s :: s in order && ToIngest(env, d, index, s) ==> RowsOf(p.rows, s) == {})
  }

  lemma OneFileBacked(env: Env, d: Disk, index: seq<Row>, order: seq<Source>, p: Process)
    requires Injective(env) && Chunky(env, p.rows) && Backed(env, p) && order != [] && (forall s :: s in order ==> s in d.hash)
    requires Untouched(env, d, index, order, p)
    ensures var q := if ToIngest(env, d, index, order[0]) then BuildOne(env, p, order[0], d.hash[order[0]]) else p;
      Chunky(env, q.rows) && Backed(env, q) && Untouched(env, d, index, order[1..], q)
  {
    var s := order[0];
    assert order == [s] + order[1..] && s !in order[1..];
    if ToIngest(env, d, index, s) {
      var q := BuildOne(env, p, s, d.hash[s]);
      BuildOneEffect(env, p, s, d.hash[s]);
      LivingBuildOne(env, p, s, d.hash[s]);
      forall t | t in q.done ensures RowsOf(q.rows, t) == Expected(env, t, q.done[t]) {
        if t != s { assert SameCheckpoint(p.done, q.done, t); }
      }
      forall t | t in order[1..] ensures t !in q.done { assert SameCheckpoint(p.done, q.done, t); }
    }
  }

  lemma {:induction false} IngestKeepsBacked(env: Env, d: Disk, index: seq<Row>, order: seq<Source>, p: Process)
    requires Injective(env) && Chunky(env, p.rows) && Backed(env, p) && (forall s :: s in order ==> s in d.hash)
    requires Untouched(env, d, index, order, p)
    ensures Backed(env, CutIngest(env, d, index, order, p))
    decreases |order|
  {
    if order != [] {
      OneFileBacked(env, d, index, order, p);
      hide Chunky, Backed, Untouched, BuildOne, ToIngest;
      IngestKeepsBacked(env, d, index, order[1..], if ToIngest(env, d, index, order[0]) then BuildOne(env, p, order[0], d.hash[order[0]]) else p);
    }
  }

  /** A run that starts without a checkpoint leaves one that is backed by the index,
      wherever it is killed and whatever fails. */
  lemma CutRunIsBacked(env: Env, d: Disk, p: Process)
    requires Scanned(env, d) && Injective(env) && Chunky(env, p.rows) && p.done == map[]
    ensures Backed(env, CutRun(env, d, p))
  {
    var q := Emptied(env, d, p);
    EmptiedKeepsChunky(env, d, p);
    LivingDelete(env, p.rows, ToDelete(env, d, p.rows), p);
    forall s | s in d.order && ToIngest(env, d, p.rows, s) && q.life > 0 ensures RowsOf(q.rows, s) == {} { AboutToBeStored(env, d, p, s); }
    hide Emptied, ToIngest, Chunky, RowsOf;
    IngestKeepsBacked(env, d, p.rows, d.order, q);
  }

  // ------------------------------------------------------------ what the next clean run repairs

  /** Some of the chunks of this version, but not all, and nothing else. */
  ghost predicate Partial(env: Env, rows: seq<Row>, s: Source, h: Hash) {
    {} < RowsOf(rows, s) < Expected(env, s, h)
  }

  ghost predicate NonePartial(env: Env, d: Disk, rows: seq<Row>) {
    forall s :: s in d.hash ==> !Partial(env, rows, s, d.hash[s])
  }

  lemma CurrentRowsAreExpected(env: Env, rows: seq<Row>, s: Source, h: Hash)
    requires Chunky(env, rows) && Injective(env) && HashesOf(rows, s) == {h}
    ensures {} < RowsOf(rows, s) <= Expected(env, s, h)
  {
    forall r | r in RowsOf(rows, s) ensures r in Expected(env, s, h) {
      assert r.hash in HashesOf(rows, s) && IsChunk(env, r);
      var t, i: nat :| i < env.chunks(t, r.hash) && r == Row(env.chunkId(t, i), Some(t), r.hash);
    }
    assert h in HashesOf(rows, s);
    var r :| r in rows && r.source == Some(s) && r.hash == h;
    assert r in RowsOf(rows, s);
  }

  lemma KeptAreWholeIff(env: Env, d: Disk, w: World)
    requires Scanned(env, d) && Injective(env) && Chunky(env, w.rows)
    ensures KeptAreWhole(env, d, w) <==> NonePartial(env, d, w.rows)
  {
    forall s | s in d.hash
      ensures (Kept(env, d, w, s) ==> RowsOf(w.rows, s) == Expected(env, s, d.hash[s])) <==> !Partial(env, w.rows, s, d.hash[s])
    {
      SourcesMembers(w.rows, s);
      if Kept(env, d, w, s) { CurrentRowsAreExpected(env, w.rows, s, d.hash[s]); }
      if Partial(env, w.rows, s, d.hash[s]) { HashesOfWhole(env, w.rows, s, d.hash[s]); }
    }
  }

  // ------------------------------------------------------------ any number of runs

  /** One run: the disk it sees, what is ignored and what fails during it, and its death. */
  datatype Round = Round(disk: Disk, ignored: Source -> bool, deleteOk: (Source, nat) -> bool, fails: Source -> Option<nat>, life: nat)

  function Outcome(env: Env, round: Round): Env {
    env.(ignored := round.ignored, deleteOk := round.deleteOk, ingestFails := round.fails)
  }

  ghost predicate ProperRounds(env: Env, rounds: seq<Round>) {
    forall k :: 0 <= k < |rounds| ==> Scanned(Outcome(env, rounds[k]), rounds[k].disk)
  }

  ghost function After(env: Env, w: World, round: Round): World
    requires Scanned(Outcome(env, round), round.disk)
  {
    State(CutRun(Outcome(env, round), round.disk, Process(w.rows, w.done, round.life)))
  }

  ghost function Rounds(env: Env, w: World, rounds: seq<Round>): World
    requires ProperRounds(env, rounds)
    decreases |rounds|
  {
    if rounds == [] then w else Rounds(env, After(env, w, rounds[0]), rounds[1..])
  }

  const EmptyIndex := World([], map[])

  lemma OutcomeKeeps(env: Env, round: Round, rows: seq<Row>)
    ensures Chunky(env, rows) <==> Chunky(Outcome(env, round), rows)
    ensures Injective(env) <==> Injective(Outcome(env, round))
  {
    forall r ensures IsChunk(env, r) <==> IsChunk(Outcome(env, round), r) { SameChunk(env, Outcome(env, round), r); }
  }

  lemma OneRoundKeepsChunky(env: Env, w: World, round: Round)
    requires Injective(env) && Scanned(Outcome(env, round), round.disk) && Chunky(env, w.rows)
    ensures Chunky(env, After(env, w, round).rows)
  {
    OutcomeKeeps(env, round, w.rows);
    OutcomeKeeps(env, round, After(env, w, round).rows);
    CutRunKeepsChunky(Outcome(env, round), round.disk, Process(w.rows, w.done, round.life));
  }

  lemma {:induction false} RoundsKeepChunky(env: Env, w: World, rounds: seq<Round>)
    requires Injective(env) && ProperRounds(env, rounds) && Chunky(env, w.rows)
    ensures Chunky(env, Rounds(env, w, rounds).rows)
    decreases |rounds|
  {
    if rounds != [] {
      OneRoundKeepsChunky(env, w, rounds[0]);
      RoundsKeepChunky(env, After(env, w, rounds[0]), rounds[1..]);
    }
  }

  /** From any index that killed and failing reconciles over changing disks can leave:
      a run in which nothing fails mirrors its disk exactly when no file of that disk is
      stored in part, and every file its checkpoint wrongly skips is empty. */
  lemma ReachableMirrorsIff(env: Env, rounds: seq<Round>, last: Round)
    requires Injective(env) && ProperRounds(env, rounds) && Scanned(Outcome(env, last), last.disk)
    requires Clean(Outcome(env, last), last.disk, Rounds(env, EmptyIndex, rounds))
    ensures var w := Rounds(env, EmptyIndex, rounds); var e := Outcome(env, last);
      Mirrors(e, last.disk, Reconcile.Run(e, last.disk, w).rows) <==> NonePartial(e, last.disk, w.rows) && SkippedAreEmpty(e, last.disk, w)
  {
    var w, e := Rounds(env, EmptyIndex, rounds), Outcome(env, last);
    RoundsKeepChunky(env, EmptyIndex, rounds);
    OutcomeKeeps(env, last, w.rows);
    ChunkyIsKeyed(e, w.rows);
    MirrorsIff(e, last.disk, w);
    KeptAreWholeIff(e, last.disk, w);
  }

  /** One run killed or failing anywhere after a clean one, and then a clean run over
      whatever the disk has become: it repairs the index exactly when the interrupted
      run left no file of that disk stored in part. */
  lemma InterruptedRunIsRepairedIff(env: Env, rounds: seq<Round>, cut: Round, last: Round)
    requires Injective(env) && ProperRounds(env, rounds) && Rounds(env, EmptyIndex, rounds).done == map[]
    requires Scanned(Outcome(env, cut), cut.disk) && Scanned(Outcome(env, last), last.disk)
    requires Clean(Outcome(env, last), last.disk, After(env, Rounds(env, EmptyIndex, rounds), cut))
    ensures var w := After(env, Rounds(env, EmptyIndex, rounds), cut); var e := Outcome(env, last);
      Mirrors(e, last.disk, Reconcile.Run(e, last.disk, w).rows) <==> NonePartial(e, last.disk, w.rows)
  {
    var w0, e := Rounds(env, EmptyIndex, rounds), Outcome(env, last);
    var w := After(env, w0, cut);
    RoundsKeepChunky(env, EmptyIndex, rounds);
    OneRoundKeepsChunky(env, w0, cut);
    OutcomeKeeps(env, cut, w0.rows);
    OutcomeKeeps(env, last, w.rows);
    CutRunIsBacked(Outcome(env, cut), cut.disk, Process(w0.rows, map[], cut.life));
    assert SoundCheckpoint(e, w) by { forall s, h ensures Expected(e, s, h) == Expected(Outcome(env, cut), s, h) {} }
    ChunkyIsKeyed(e, w.rows);
    SoundCheckpointSkipsOnlyEmpty(e, last.disk, w);
    MirrorsIff(e, last.disk, w);
    KeptAreWholeIff(e, last.disk, w);
  }

  // ------------------------------------------------------------ a kill leaves at most one file in part

  lemma NoFailurePartial(env: Env, p: Process, s: Source, h: Hash)
    requires Injective(env) && Chunky(env, p.rows) && env.ingestFails(s).None? && RowsOf(p.rows, s) == {} && s !in p.done
    requires BuildOne(env, p, s, h).life > 0
    ensures RowsOf(BuildOne(env, p, s, h).rows, s) == Expected(env, s, h)
  {
    BuildOneEffect(env, p, s, h);
    LivingBuildOne(env, p, s, h);
  }

  lemma {:induction false} DeadIngestsNothing(env: Env, d: Disk, index: seq<Row>, order: seq<Source>, p: Process)
    requires (forall s :: s in order ==> s in d.hash) && p.life == 0
    ensures CutIngest(env, d, index, order, p) == p
    decreases |order|
  {
    if order != [] { DeadIngestsNothing(env, d, index, order[1..], p); }
  }

  lemma {:induction false} IngestLeavesOnePartial(env: Env, d: Disk, index: seq<Row>, order: seq<Source>, p: Process, s: Source, t: Source)
    requires Injective(env) && Chunky(env, p.rows) && Backed(env, p) && (forall u :: u in order ==> u in d.hash)
    requires Untouched(env, d, index, order, p) && (forall u :: env.ingestFails(u).None?) && NonePartial(env, d, p.rows)
    requires var rows := CutIngest(env, d, index, order, p).rows;
      s in d.hash && t in d.hash && Partial(env, rows, s, d.hash[s]) && Partial(env, rows, t, d.hash[t])
    ensures s == t
    decreases |order|
  {
    if order != [] {
      var u := order[0];
      var q := if ToIngest(env, d, index, u) then BuildOne(env, p, u, d.hash[u]) else p;
      OneFileBacked(env, d, index, order, p);
      BuildOneEffect(env, p, u, d.hash[u]);
      hide Chunky, Backed, ToIngest, BuildOne, RowsOf;
      forall v | v in d.hash && (v != u || q == p) ensures !Partial(env, q.rows, v, d.hash[v]) { assert !Partial(env, p.rows, v, d.hash[v]); }
      if q.life == 0 {
        DeadIngestsNothing(env, d, index, order[1..], q);
      } else {
        LivingBuildOne(env, p, u, d.hash[u]);
        if ToIngest(env, d, index, u) { NoFailurePartial(env, p, u, d.hash[u]); }
        IngestLeavesOnePartial(env, d, index, order[1..], q, s, t);
      }
    }
  }

  /** Deleting leaves no file of the new disk in part when the index mirrored the old one. */
  lemma EmptiedLeavesNonePartial(env: Env, former: Disk, d: Disk, p: Process)
    requires Scanned(env, d) && Injective(env) && Chunky(env, p.rows) && Mirrors(env, former, p.rows)
    ensures NonePartial(env, d, Emptied(env, d, p).rows)
  {
    ChunkyIsKeyed(env, p.rows);
    var list, rows := ToDelete(env, d, p.rows), Emptied(env, d, p).rows;
    forall s | s in d.hash ensures !Partial(env, rows, s, d.hash[s]) {
      forall r | r in rows ensures r in p.rows { CutDeleteMembers(env, p.rows, list, p, r); }
      assert RowsOf(rows, s) <= RowsOf(p.rows, s);
      assert RowsOf(p.rows, s) == if s in former.hash then Expected(env, s, former.hash[s]) else {};
      if s in former.hash && former.hash[s] == d.hash[s] && RowsOf(p.rows, s) != {} {
        SourcesMembers(p.rows, s);
        HashesOfWhole(env, p.rows, s, d.hash[s]);
        ToDeleteMembers(env, d, p.rows, s);
        forall r | r in RowsOf(p.rows, s) ensures r in RowsOf(rows, s) { CutDeleteMembers(env, p.rows, list, p, r); }
      }
    }
  }

  /** A run over a mirrored index in which nothing fails, killed anywhere: at most one
      file of its disk is left stored in part. */
  lemma KillLeavesAtMostOnePartial(env: Env, former: Disk, d: Disk, p: Process, s: Source, t: Source)
    requires Scanned(env, d) && Injective(env) && Chunky(env, p.rows) && Mirrors(env, former, p.rows) && p.done == map[]
    requires forall u :: env.ingestFails(u).None?
    requires var rows := CutRun(env, d, p).rows;
      s in d.hash && t in d.hash && Partial(env, rows, s, d.hash[s]) && Partial(env, rows, t, d.hash[t])
    ensures s == t
  {
    var q := Emptied(env, d, p);
    EmptiedKeepsChunky(env, d, p);
    EmptiedLeavesNonePartial(env, former, d, p);
    LivingDelete(env, p.rows, ToDelete(env, d, p.rows), p);
    forall u | u in d.order && ToIngest(env, d, p.rows, u) && q.life > 0 ensures RowsOf(q.rows, u) == {} { AboutToBeStored(env, d, p, u); }
    hide Emptied, ToIngest, Chunky, RowsOf, Partial, NonePartial;
    IngestLeavesOnePartial(env, d, p.rows, d.order, q, s, t);
  }
}
