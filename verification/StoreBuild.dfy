/** Filling the side store of a rebuild from the disk, file by file past a
    checkpoint, over any number of sessions killed at any write, with the disk
    free to change between them.  `life` counts the writes a session still lives
    to make: one per stored chunk and one per checkpoint entry. */
module StoreBuild {
  import opened Common
  import opened Reconcile
  import opened ReconcileTheorems

  datatype Process = Process(rows: seq<Row>, done: map<Source, Hash>, life: nat)

  // ------------------------------------------------------------ one session

  /** A checkpoint that names files while the store is empty is dropped. */
  function Open(p: Process): Process {
    if p.life > 0 && p.done != map[] && p.rows == [] then p.(done := map[], life := p.life - 1) else p
  }

  /** Store chunks `i..n` of a file; an id the store already holds is passed over. */
  function Store(env: Env, p: Process, s: Source, h: Hash, i: nat, n: nat): Process
    decreases n - i
  {
    if i >= n || p.life == 0 then p
    else Store(env, if HasId(p.rows, env.chunkId(s, i)) then p
                    else p.(rows := p.rows + [Row(env.chunkId(s, i), Some(s), h)], life := p.life - 1), s, h, i + 1, n)
  }

  function MarkComplete(p: Process, s: Source, h: Hash): Process {
    if p.life == 0 then p else p.(done := p.done[s := h], life := p.life - 1)
  }

  function BuildOne(env: Env, p: Process, s: Source, h: Hash): Process {
    if s in p.done && p.done[s] == h then p
    else
      var n := env.chunks(s, h);
      match env.ingestFails(s)
      case None => MarkComplete(Store(env, p, s, h, 0, n), s, h)
      case Some(k) => Store(env, p, s, h, 0, if k < n then k else n)
  }

  function Build(env: Env, d: Disk, order: seq<Source>, p: Process): Process
    requires forall s :: s in order ==> s in d.hash
    decreases |order|
  {
    if order == [] then p else Build(env, d, order[1..], BuildOne(env, p, order[0], d.hash[order[0]]))
  }

  function Session(env: Env, d: Disk, p: Process): Process
    requires forall s :: s in d.order ==> s in d.hash
  {
    Build(env, d, d.order, Open(p))
  }

  class Builder {
    var rows: seq<Row>
    var done: map<Source, Hash>
    var life: nat

    constructor (p: Process)
      ensures State() == p
    {
      rows, done, life := p.rows, p.done, p.life;
    }

    function State(): Process reads this { Process(rows, done, life) }

    method StoreFile(env: Env, s: Source, h: Hash, n: nat)
      modifies this
      ensures State() == old(Store(env, State(), s, h, 0, n))
    {
      ghost var before := State();
      for i := 0 to n
        invariant Store(env, State(), s, h, i, n) == Store(env, before, s, h, 0, n)
      {
        if life > 0 && !HasId(rows, env.chunkId(s, i)) {
          rows, life := rows + [Row(env.chunkId(s, i), Some(s), h)], life - 1;
        }
      }
    }

    /** One file: skipped when the checkpoint has it, else stored and marked unless it fails. */
    method IngestFile(env: Env, s: Source, h: Hash)
      modifies this
      ensures State() == old(BuildOne(env, State(), s, h))
    {
      if s in done && done[s] == h { return; }
      var n := env.chunks(s, h);
      if env.ingestFails(s).Some? {
        StoreFile(env, s, h, if env.ingestFails(s).value < n then env.ingestFails(s).value else n);
      } else {
        StoreFile(env, s, h, n);
        if life > 0 { done, life := done[s := h], life - 1; }
      }
    }

    method BuildCollectionFromDisk(env: Env, d: Disk)
      requires Scanned(env, d)
      modifies this
      ensures State() == old(Session(env, d, State()))
    {
      if life > 0 && done != map[] && rows == [] { done, life := map[], life - 1; }
      ghost var before := State();
      for i := 0 to |d.order|
        invariant Build(env, d, d.order[i..], State()) == Build(env, d, d.order, before)
      {
        assert d.order[i..][1..] == d.order[i + 1..] && d.order[i] in d.order;
        IngestFile(env, d.order[i], d.hash[d.order[i]]);
      }
    }
  }

  // ------------------------------------------------------------ any number of sessions

  /** One session: what was on disk, which files fail and where, and its death. */
  datatype Run = Run(disk: Disk, fails: Source -> Option<nat>, life: nat)

  ghost function Start(p: Process, r: Run): Process {
    p.(life := r.life)
  }

  ghost predicate Proper(env: Env, runs: seq<Run>) {
    forall k :: 0 <= k < |runs| ==> Scanned(env, runs[k].disk)
  }

  ghost function Sessions(env: Env, p: Process, runs: seq<Run>): Process
    requires Proper(env, runs)
    decreases |runs|
  {
    if runs == [] then p
    else Sessions(env, Session(env.(ingestFails := runs[0].fails), runs[0].disk, Start(p, runs[0])), runs[1..])
  }

  const Empty: Process := Process([], map[], 0)

  // ------------------------------------------------------------ what every crash state keeps

  /** A row is one chunk of some version of its file. */
  ghost predicate IsChunk(env: Env, r: Row) {
    exists s, i: nat :: i < env.chunks(s, r.hash) && r == Row(env.chunkId(s, i), Some(s), r.hash)
  }

  /** Every row is a chunk, and every completed file has a row under each of its ids
      (of whatever version). */
  ghost predicate Sound(env: Env, p: Process) {
    && (forall r :: r in p.rows ==> IsChunk(env, r))
    && (forall s, i: nat :: s in p.done && i < env.chunks(s, p.done[s]) ==> HasId(p.rows, env.chunkId(s, i)))
  }

  /** What `from` holds is kept, and what is added is a chunk of a file as it is on this disk. */
  ghost predicate Extends(d: Disk, from: seq<Row>, rows: seq<Row>) {
    from <= rows && forall r :: r in rows[|from|..] ==> r.source.Some? && r.source.value in d.hash && d.hash[r.source.value] == r.hash
  }

  lemma {:induction false} StoreKeeps(env: Env, d: Disk, p: Process, s: Source, h: Hash, i: nat, n: nat)
    requires Sound(env, p) && n <= env.chunks(s, h) && s in d.hash && d.hash[s] == h
    ensures var p' := Store(env, p, s, h, i, n);
      && Sound(env, p') && Extends(d, p.rows, p'.rows) && p'.done == p.done
      && (p'.life > 0 ==> forall j :: i <= j < n ==> HasId(p'.rows, env.chunkId(s, j)))
    decreases n - i
  {
    if i < n && p.life > 0 {
      var row := Row(env.chunkId(s, i), Some(s), h);
      var next := if HasId(p.rows, row.id) then p else p.(rows := p.rows + [row], life := p.life - 1);
      if next != p { OneMoreRow(env, d, p, next, s, i); }
      assert HasId(next.rows, row.id) by { if next != p { assert next.rows[|p.rows|].id == row.id; } }
      hide Sound, Extends, HasId;
      StoreKeeps(env, d, next, s, h, i + 1, n);
      ExtendsTwice(d, p.rows, next.rows, Store(env, next, s, h, i + 1, n).rows);
      IdStays(d, next.rows, Store(env, next, s, h, i + 1, n).rows, row.id);
    }
  }

  lemma OneMoreRow(env: Env, d: Disk, p: Process, next: Process, s: Source, i: nat)
    requires Sound(env, p) && s in d.hash && i < env.chunks(s, d.hash[s])
    requires next.rows == p.rows + [Row(env.chunkId(s, i), Some(s), d.hash[s])] && next.done == p.done
    ensures Sound(env, next) && Extends(d, p.rows, next.rows)
  {
    var row := Row(env.chunkId(s, i), Some(s), d.hash[s]);
    assert IsChunk(env, row);
    assert forall id :: HasId(p.rows, id) ==> HasId(next.rows, id) by { forall id | HasId(p.rows, id) ensures HasId(next.rows, id) { IdKept(p.rows, row, id); } }
    assert next.rows[|p.rows|..] == [row];
  }

  lemma IdKept(rows: seq<Row>, row: Row, id: Id)
    requires HasId(rows, id)
    ensures HasId(rows + [row], id)
  {
    var k :| 0 <= k < |rows| && rows[k].id == id;
    assert (rows + [row])[k].id == id;
  }

  lemma ExtendsTwice(d: Disk, a: seq<Row>, b: seq<Row>, c: seq<Row>)
    requires Extends(d, a, b) && Extends(d, b, c)
    ensures Extends(d, a, c)
  {
    forall r | r in c[|a|..] ensures r in b[|a|..] || r in c[|b|..] {
      var k :| |a| <= k < |c| && c[k] == r;
      if k < |b| { assert b[|a|..][k - |a|] == r; } else { assert c[|b|..][k - |b|] == r; }
    }
  }

  lemma IdStays(d: Disk, a: seq<Row>, b: seq<Row>, id: Id)
    requires Extends(d, a, b) && HasId(a, id)
    ensures HasId(b, id)
  {
    var k :| 0 <= k < |a| && a[k].id == id;
    assert b[k].id == id;
  }

  /** A file is complete at its current version. */
  ghost predicate Complete(d: Disk, p: Process, s: Source)
    requires s in d.hash
  {
    s in p.done && p.done[s] == d.hash[s]
  }

  /** One file: soundness is kept wherever the session dies, and if it lives and the
      file does not fail, the file is complete at its current version. */
  lemma BuildOneKeeps(env: Env, d: Disk, p: Process, s: Source)
    requires Sound(env, p) && s in d.hash
    ensures var p' := BuildOne(env, p, s, d.hash[s]);
      && Sound(env, p') && Extends(d, p.rows, p'.rows)
      && (forall t :: t != s ==> SameCheckpoint(p.done, p'.done, t))
      && (p'.life > 0 ==> p.life > 0 && (!IngestFailed(env, p.done, s, d.hash[s]) ==> Complete(d, p', s)))
  {
    var h, n := d.hash[s], env.chunks(s, d.hash[s]);
    assert Extends(d, p.rows, p.rows);
    if !(s in p.done && p.done[s] == h) {
      match env.ingestFails(s) {
        case Some(k) =>
          StoreKeeps(env, d, p, s, h, 0, if k < n then k else n);
          StoreLife(env, p, s, h, 0, if k < n then k else n);
        case None =>
          StoreKeeps(env, d, p, s, h, 0, n);
          StoreLife(env, p, s, h, 0, n);
          MarkKeeps(env, Store(env, p, s, h, 0, n), s, h);
      }
    }
  }

  lemma {:induction false} StoreLife(env: Env, p: Process, s: Source, h: Hash, i: nat, n: nat)
    ensures Store(env, p, s, h, i, n).life <= p.life
    decreases n - i
  {
    if i < n && p.life > 0 {
      StoreLife(env, if HasId(p.rows, env.chunkId(s, i)) then p
                     else p.(rows := p.rows + [Row(env.chunkId(s, i), Some(s), h)], life := p.life - 1), s, h, i + 1, n);
    }
  }

  lemma MarkKeeps(env: Env, p: Process, s: Source, h: Hash)
    requires Sound(env, p) && (p.life > 0 ==> forall j :: 0 <= j < env.chunks(s, h) ==> HasId(p.rows, env.chunkId(s, j)))
    ensures Sound(env, MarkComplete(p, s, h))
  {}

  ghost predicate SameCheckpoint(a: map<Source, Hash>, b: map<Source, Hash>, s: Source) {
    (s in a <==> s in b) && (s in a ==> a[s] == b[s])
  }

  lemma {:induction false} BuildKeeps(env: Env, d: Disk, order: seq<Source>, p: Process)
    requires Sound(env, p) && forall s :: s in order ==> s in d.hash
    ensures var p' := Build(env, d, order, p);
      && Sound(env, p') && Extends(d, p.rows, p'.rows) && (p'.life > 0 ==> p.life > 0)
    decreases |order|
  {
    assert Extends(d, p.rows, p.rows);
    if order != [] {
      assert order[0] in order && forall s :: s in order[1..] ==> s in order;
      var next := BuildOne(env, p, order[0], d.hash[order[0]]);
      BuildOneKeeps(env, d, p, order[0]);
      hide Sound, Extends, BuildOne;
      BuildKeeps(env, d, order[1..], next);
      ExtendsTwice(d, p.rows, next.rows, Build(env, d, order[1..], next).rows);
    }
  }

  /** A file the checkpoint has at its current version stays there. */
  lemma {:induction false} CompleteStays(env: Env, d: Disk, order: seq<Source>, p: Process, s: Source)
    requires Sound(env, p) && (forall t :: t in order ==> t in d.hash) && s in d.hash && Complete(d, p, s)
    ensures Complete(d, Build(env, d, order, p), s)
    decreases |order|
  {
    if order != [] {
      assert order[0] in order && forall t :: t in order[1..] ==> t in order;
      BuildOneKeeps(env, d, p, order[0]);
      if order[0] != s { assert SameCheckpoint(p.done, BuildOne(env, p, order[0], d.hash[order[0]]).done, s); }
      CompleteStays(env, d, order[1..], BuildOne(env, p, order[0], d.hash[order[0]]), s);
    }
  }

  lemma {:induction false} BuildCompletes(env: Env, d: Disk, order: seq<Source>, p: Process, s: Source)
    requires Sound(env, p) && (forall t :: t in order ==> t in d.hash) && s in order
    requires !IngestFailed(env, p.done, s, d.hash[s]) && Build(env, d, order, p).life > 0
    ensures Complete(d, Build(env, d, order, p), s)
    decreases |order|
  {
    assert order[0] in order && forall t :: t in order[1..] ==> t in order;
    var next := BuildOne(env, p, order[0], d.hash[order[0]]);
    BuildOneKeeps(env, d, p, order[0]);
    BuildKeeps(env, d, order[1..], next);
    hide Sound, Extends, BuildOne;
    if s == order[0] {
      CompleteStays(env, d, order[1..], next, s);
    } else {
      assert order == [order[0]] + order[1..];
      assert SameCheckpoint(p.done, next.done, s);
      BuildCompletes(env, d, order[1..], next, s);
    }
  }

  lemma SessionKeeps(env: Env, d: Disk, p: Process)
    requires Sound(env, p) && Scanned(env, d)
    ensures Sound(env, Session(env, d, p)) && Extends(d, p.rows, Session(env, d, p).rows)
  {
    BuildKeeps(env, d, d.order, Open(p));
  }

  // ------------------------------------------------------------ when a resumed build mirrors the disk

  /** The session ran to its end. */
  ghost predicate Ends(env: Env, d: Disk, p: Process)
    requires Scanned(env, d)
  {
    Session(env, d, p).life > 0
  }

  /** No file the session tried failed. */
  ghost predicate NoneFailed(env: Env, d: Disk, p: Process) {
    forall s :: s in d.hash ==> !IngestFailed(env, Open(p).done, s, d.hash[s])
  }

  /** A row under every id of this version of the file. */
  ghost predicate AllIds(env: Env, rows: seq<Row>, s: Source, h: Hash) {
    forall i: nat :: i < env.chunks(s, h) ==> HasId(rows, env.chunkId(s, i))
  }

  /** What a failing file does not get to store was stored before. */
  ghost predicate TailStored(env: Env, rows: seq<Row>, s: Source, h: Hash) {
    env.ingestFails(s).Some? ==>
      forall i: nat :: env.ingestFails(s).value <= i < env.chunks(s, h) ==> HasId(rows, env.chunkId(s, i))
  }

  ghost predicate FailuresWereStored(env: Env, d: Disk, p: Process) {
    forall s :: s in d.hash && IngestFailed(env, Open(p).done, s, d.hash[s]) ==> TailStored(env, p.rows, s, d.hash[s])
  }

  /** Every stored row is of a file on this disk, at its current version. */
  ghost predicate AllCurrent(d: Disk, rows: seq<Row>) {
    forall r :: r in rows ==> r.source.Some? && r.source.value in d.hash && d.hash[r.source.value] == r.hash
  }

  lemma CurrentRowsMirror(env: Env, d: Disk, p: Process)
    requires Injective(env) && Sound(env, p) && AllCurrent(d, p.rows)
    requires forall s :: s in d.hash ==> AllIds(env, p.rows, s, d.hash[s])
    ensures Mirrors(env, d, p.rows)
  {
    forall s ensures RowsOf(p.rows, s) == if s in d.hash then Expected(env, s, d.hash[s]) else {} {
      if s in d.hash { CurrentFileMirrors(env, d, p, s); }
    }
  }

  lemma CurrentFileMirrors(env: Env, d: Disk, p: Process, s: Source)
    requires Injective(env) && Sound(env, p) && AllCurrent(d, p.rows) && s in d.hash && AllIds(env, p.rows, s, d.hash[s])
    ensures RowsOf(p.rows, s) == Expected(env, s, d.hash[s])
  {
    var h := d.hash[s];
    forall r | r in RowsOf(p.rows, s) ensures r in Expected(env, s, h) {
      assert IsChunk(env, r);
      var t, i: nat :| i < env.chunks(t, r.hash) && r == Row(env.chunkId(t, i), Some(t), r.hash);
      assert t == s && r.hash == h;
    }
    forall r | r in Expected(env, s, h) ensures r in RowsOf(p.rows, s) {
      var j: nat :| 0 <= j < env.chunks(s, h) && r == Row(env.chunkId(s, j), Some(s), h);
      assert HasId(p.rows, env.chunkId(s, j));
      var k :| 0 <= k < |p.rows| && p.rows[k].id == env.chunkId(s, j);
      var q := p.rows[k];
      assert q in p.rows && IsChunk(env, q);
      var t, i: nat :| i < env.chunks(t, q.hash) && q == Row(env.chunkId(t, i), Some(t), q.hash);
      assert t == s && i == j && q.hash == h;
    }
  }

  lemma MirroredHasAllIds(env: Env, d: Disk, rows: seq<Row>, s: Source)
    requires Mirrors(env, d, rows) && s in d.hash
    ensures AllIds(env, rows, s, d.hash[s])
  {
    forall i: nat | i < env.chunks(s, d.hash[s]) ensures HasId(rows, env.chunkId(s, i)) {
      var r := Row(env.chunkId(s, i), Some(s), d.hash[s]);
      assert r in Expected(env, s, d.hash[s]);
      assert r in RowsOf(rows, s);
      var k :| 0 <= k < |rows| && rows[k] == r;
    }
  }

  lemma MirroredRowsAreCurrent(env: Env, d: Disk, rows: seq<Row>, r: Row)
    requires Mirrors(env, d, rows) && r in rows && r.source.Some?
    ensures r.source.value in d.hash && d.hash[r.source.value] == r.hash
  {
    var s := r.source.value;
    assert r in RowsOf(rows, s);
    assert RowsOf(rows, s) == if s in d.hash then Expected(env, s, d.hash[s]) else {};
  }

  /** Storing chunks adds no other ids. */
  lemma {:induction false} StoreAddsIds(env: Env, p: Process, s: Source, h: Hash, i: nat, n: nat, id: Id)
    requires HasId(Store(env, p, s, h, i, n).rows, id)
    ensures HasId(p.rows, id) || exists j :: i <= j < n && id == env.chunkId(s, j)
    decreases n - i
  {
    if i < n && p.life > 0 {
      var row := Row(env.chunkId(s, i), Some(s), h);
      var next := if HasId(p.rows, row.id) then p else p.(rows := p.rows + [row], life := p.life - 1);
      StoreAddsIds(env, next, s, h, i + 1, n, id);
      if HasId(next.rows, id) && next != p {
        var k :| 0 <= k < |next.rows| && next.rows[k].id == id;
        if k < |p.rows| { assert p.rows[k].id == id; }
      }
    }
  }

  /** Nothing a session does adds a chunk of a failing file past the failure. */
  lemma {:induction false} TailIsOld(env: Env, d: Disk, order: seq<Source>, p: Process, s: Source, i: nat)
    requires Injective(env) && (forall t :: t in order ==> t in d.hash)
    requires env.ingestFails(s).Some? && env.ingestFails(s).value <= i && HasId(Build(env, d, order, p).rows, env.chunkId(s, i))
    ensures HasId(p.rows, env.chunkId(s, i))
    decreases |order|
  {
    if order != [] {
      assert order == [order[0]] + order[1..];
      var t, h := order[0], d.hash[order[0]];
      TailIsOld(env, d, order[1..], BuildOne(env, p, t, h), s, i);
      var n := env.chunks(t, h);
      if !(t in p.done && p.done[t] == h) {
        StoreAddsIds(env, p, t, h, 0, if env.ingestFails(t).Some? && env.ingestFails(t).value < n then env.ingestFails(t).value else n, env.chunkId(s, i));
      }
    }
  }

  /** A failing file stores everything before the failure. */
  lemma {:induction false} HeadIsStored(env: Env, d: Disk, order: seq<Source>, p: Process, s: Source, i: nat)
    requires Sound(env, p) && (forall t :: t in order ==> t in d.hash) && s in order && Build(env, d, order, p).life > 0
    requires IngestFailed(env, p.done, s, d.hash[s]) && i < env.chunks(s, d.hash[s]) && i < env.ingestFails(s).value
    ensures HasId(Build(env, d, order, p).rows, env.chunkId(s, i))
    decreases |order|
  {
    assert order == [order[0]] + order[1..];
    var next := BuildOne(env, p, order[0], d.hash[order[0]]);
    BuildOneKeeps(env, d, p, order[0]);
    BuildKeeps(env, d, order[1..], next);
    if s == order[0] {
      var n := env.chunks(s, d.hash[s]);
      StoreKeeps(env, d, p, s, d.hash[s], 0, if env.ingestFails(s).value < n then env.ingestFails(s).value else n);
      IdStays(d, next.rows, Build(env, d, order, p).rows, env.chunkId(s, i));
    } else {
      assert SameCheckpoint(p.done, next.done, s);
      HeadIsStored(env, d, order[1..], next, s, i);
    }
  }

  lemma EndedHasAllIdsIff(env: Env, d: Disk, p: Process, s: Source)
    requires Injective(env) && Scanned(env, d) && Sound(env, p) && Ends(env, d, p) && s in d.hash
    ensures AllIds(env, Session(env, d, p).rows, s, d.hash[s]) <==>
      (IngestFailed(env, Open(p).done, s, d.hash[s]) ==> TailStored(env, p.rows, s, d.hash[s]))
  {
    var q, h, rows := Open(p), d.hash[s], Session(env, d, p).rows;
    SessionKeeps(env, d, p);
    BuildKeeps(env, d, d.order, q);
    if IngestFailed(env, q.done, s, h) {
      forall i: nat | i < env.chunks(s, h) && i < env.ingestFails(s).value ensures HasId(rows, env.chunkId(s, i)) {
        HeadIsStored(env, d, d.order, q, s, i);
      }
      forall i: nat | env.ingestFails(s).value <= i < env.chunks(s, h)
        ensures HasId(rows, env.chunkId(s, i)) <==> HasId(p.rows, env.chunkId(s, i))
      {
        if HasId(rows, env.chunkId(s, i)) { TailIsOld(env, d, d.order, q, s, i); }
        if HasId(p.rows, env.chunkId(s, i)) { IdStays(d, p.rows, rows, env.chunkId(s, i)); }
      }
    } else {
      BuildCompletes(env, d, d.order, q, s);
    }
  }

  /** A session that runs to its end leaves a store that mirrors the disk exactly when
      the store it resumed held no row of a gone file or of an older version (ids are
      reused and nothing is deleted, so such a row is never replaced) and whatever a
      file failed to store now had been stored before. */
  lemma ResumedBuildMirrorsIff(env: Env, d: Disk, p: Process)
    requires Injective(env) && Scanned(env, d) && Sound(env, p) && Ends(env, d, p)
    ensures Mirrors(env, d, Session(env, d, p).rows) <==> AllCurrent(d, p.rows) && FailuresWereStored(env, d, p)
  {
    hide Session, Open, HasId, IngestFailed, Injective;
    var p' := Session(env, d, p);
    SessionKeeps(env, d, p);
    forall s | s in d.hash
      ensures AllIds(env, p'.rows, s, d.hash[s]) <==> (IngestFailed(env, Open(p).done, s, d.hash[s]) ==> TailStored(env, p.rows, s, d.hash[s]))
    {
      EndedHasAllIdsIff(env, d, p, s);
    }
    if AllCurrent(d, p.rows) && FailuresWereStored(env, d, p) {
      ExtendsCurrent(d, p.rows, p'.rows);
      CurrentRowsMirror(env, d, p');
    }
    if Mirrors(env, d, p'.rows) {
      forall r | r in p.rows ensures r.source.Some? && r.source.value in d.hash && d.hash[r.source.value] == r.hash {
        assert IsChunk(env, r) && r in p'.rows;
        MirroredRowsAreCurrent(env, d, p'.rows, r);
      }
      forall s | s in d.hash ensures AllIds(env, p'.rows, s, d.hash[s]) { MirroredHasAllIds(env, d, p'.rows, s); }
    }
  }

  lemma ExtendsCurrent(d: Disk, a: seq<Row>, b: seq<Row>)
    requires Extends(d, a, b) && AllCurrent(d, a)
    ensures AllCurrent(d, b)
  {
    forall r | r in b ensures r in a || r in b[|a|..] {
      var k :| 0 <= k < |b| && b[k] == r;
      if k < |a| { assert a[k] == r; } else { assert b[|a|..][k - |a|] == r; }
    }
  }

  // ------------------------------------------------------------ whole campaigns

  /** Soundness does not depend on which files fail. */
  lemma {:induction false} SessionsKeep(env: Env, p: Process, runs: seq<Run>)
    requires Proper(env, runs) && Sound(env, p)
    ensures Sound(env, Sessions(env, p, runs)) && p.rows <= Sessions(env, p, runs).rows
    decreases |runs|
  {
    if runs != [] {
      var e := env.(ingestFails := runs[0].fails);
      var next := Session(e, runs[0].disk, Start(p, runs[0]));
      SessionOfRun(env, p, runs[0]);
      SessionsKeep(env, next, runs[1..]);
    }
  }

  lemma SameSound(env: Env, p: Process, q: Process, fails: Source -> Option<nat>)
    requires q.rows == p.rows && q.done == p.done
    ensures Sound(env, p) <==> Sound(env.(ingestFails := fails), q)
  {
    var e := env.(ingestFails := fails);
    forall r ensures IsChunk(env, r) <==> IsChunk(e, r) { SameChunk(env, e, r); }
  }

  lemma SameChunk(env: Env, e: Env, r: Row)
    requires e.chunks == env.chunks && e.chunkId == env.chunkId
    ensures IsChunk(env, r) <==> IsChunk(e, r)
  {
    if s, i: nat :| i < env.chunks(s, r.hash) && r == Row(env.chunkId(s, i), Some(s), r.hash) { assert i < e.chunks(s, r.hash) && r == Row(e.chunkId(s, i), Some(s), r.hash); }
    if s, i: nat :| i < e.chunks(s, r.hash) && r == Row(e.chunkId(s, i), Some(s), r.hash) { assert i < env.chunks(s, r.hash) && r == Row(env.chunkId(s, i), Some(s), r.hash); }
  }

  lemma SessionOfRun(env: Env, p: Process, r: Run)
    requires Scanned(env, r.disk) && Sound(env, p)
    ensures var next := Session(env.(ingestFails := r.fails), r.disk, Start(p, r));
      Sound(env, next) && Extends(r.disk, p.rows, next.rows)
  {
    var e := env.(ingestFails := r.fails);
    var next := Session(e, r.disk, Start(p, r));
    SameSound(env, p, Start(p, r), r.fails);
    SessionKeeps(e, r.disk, Start(p, r));
    SameSound(env, next, next, r.fails);
  }

  /** On a disk that does not change, sessions killed or failing anywhere leave only
      current rows behind. */
  lemma {:induction false} StableDiskStaysCurrent(env: Env, d: Disk, p: Process, runs: seq<Run>)
    requires Proper(env, runs) && Sound(env, p) && AllCurrent(d, p.rows) && forall k :: 0 <= k < |runs| ==> runs[k].disk == d
    ensures AllCurrent(d, Sessions(env, p, runs).rows)
    decreases |runs|
  {
    if runs != [] {
      var next := Session(env.(ingestFails := runs[0].fails), runs[0].disk, Start(p, runs[0]));
      SessionOfRun(env, p, runs[0]);
      ExtendsCurrent(d, p.rows, next.rows);
      StableDiskStaysCurrent(env, d, next, runs[1..]);
    }
  }

  /** So however often a build of an unchanged disk is killed or fails, the first
      session that finishes leaves exactly the disk. */
  lemma StableDiskIsMirrored(env: Env, d: Disk, runs: seq<Run>, life: nat)
    requires Injective(env) && Scanned(env, d) && Proper(env, runs) && forall k :: 0 <= k < |runs| ==> runs[k].disk == d
    requires var p := Sessions(env, Empty, runs).(life := life); Ends(env, d, p) && NoneFailed(env, d, p)
    ensures Mirrors(env, d, Session(env, d, Sessions(env, Empty, runs).(life := life)).rows)
  {
    var p := Sessions(env, Empty, runs);
    assert Sound(env, Empty);
    SessionsKeep(env, Empty, runs);
    StableDiskStaysCurrent(env, d, Empty, runs);
    assert Sound(env, p.(life := life));
    ResumedBuildMirrorsIff(env, d, p.(life := life));
  }

  /** Once a row of an older version is stored, no number of resumed sessions ever
      mirrors a disk that holds another one. */
  lemma StaleRowIsNeverReplaced(env: Env, d: Disk, p: Process, runs: seq<Run>, r: Row)
    requires Proper(env, runs) && Sound(env, p) && r in p.rows
    requires r.source.Some? ==> r.source.value !in d.hash || d.hash[r.source.value] != r.hash
    ensures r in Sessions(env, p, runs).rows && !Mirrors(env, d, Sessions(env, p, runs).rows)
  {
    SessionsKeep(env, p, runs);
    var rows := Sessions(env, p, runs).rows;
    var k :| 0 <= k < |p.rows| && p.rows[k] == r;
    assert rows[k] == r;
    assert IsChunk(env, r);
    if Mirrors(env, d, rows) { MirroredRowsAreCurrent(env, d, rows, r); }
  }

  // ------------------------------------------------------------ what the checkpoint is worth

  /** `b` is `a` with rows added, none of them of this file. */
  ghost predicate AddsOthers(a: seq<Row>, b: seq<Row>, s: Source) {
    a <= b && forall k :: |a| <= k < |b| ==> b[k].source != Some(s)
  }

  lemma {:induction false} StoreAddsOthers(env: Env, p: Process, t: Source, h: Hash, i: nat, n: nat, s: Source)
    requires t != s
    ensures AddsOthers(p.rows, Store(env, p, t, h, i, n).rows, s) && Store(env, p, t, h, i, n).done == p.done
    decreases n - i
  {
    hide HasId;
    if i < n && p.life > 0 {
      StoreAddsOthers(env, if HasId(p.rows, env.chunkId(t, i)) then p
                           else p.(rows := p.rows + [Row(env.chunkId(t, i), Some(t), h)], life := p.life - 1), t, h, i + 1, n, s);
    }
  }

  lemma {:induction false} CheckpointIsHonoured(env: Env, d: Disk, order: seq<Source>, p: Process, s: Source)
    requires (forall t :: t in order ==> t in d.hash) && s in d.hash && s in p.done && p.done[s] == d.hash[s]
    ensures AddsOthers(p.rows, Build(env, d, order, p).rows, s)
    decreases |order|
  {
    if order != [] {
      var t := order[0];
      var p1 := BuildOne(env, p, t, d.hash[t]);
      if t != s {
        var n := env.chunks(t, d.hash[t]);
        StoreAddsOthers(env, p, t, d.hash[t], 0, n, s);
        if env.ingestFails(t).Some? { StoreAddsOthers(env, p, t, d.hash[t], 0, if env.ingestFails(t).value < n then env.ingestFails(t).value else n, s); }
      }
      hide Store;
      CheckpointIsHonoured(env, d, order[1..], p1, s);
    }
  }

  /** A session adds no row of a file its checkpoint names at the current version, as long
      as the store holds anything; for an empty store the checkpoint is dropped, and the
      session is that of a fresh start. */
  lemma CheckpointCounts(env: Env, d: Disk, p: Process, s: Source)
    requires Scanned(env, d)
    ensures p.rows != [] && s in d.hash && s in p.done && p.done[s] == d.hash[s] ==> AddsOthers(p.rows, Session(env, d, p).rows, s)
    ensures p.rows == [] && p.done != map[] && p.life > 0 ==> Session(env, d, p) == Session(env, d, Process([], map[], p.life - 1))
  {
    if p.rows != [] && s in d.hash && s in p.done && p.done[s] == d.hash[s] { CheckpointIsHonoured(env, d, d.order, p, s); }
    hide Build;
  }
}
