/** The apply command of the backfill batch: launch every authorized meeting,
    then run the post-batch stage (rollup, one status run per pair, commit),
    checkpointing the whole progress file after every effect.

    Crashes: `life` is the number of writes and effects the process still
    lives to perform.  Every write and every effect costs one unit; at zero the
    process is dead and nothing it does reaches the disk or the outside world.
    Quantifying over `life` therefore quantifies over every crash point. */
module BatchApply {
  import opened Common

  datatype Pair = Pair(client: string, engagement: string)

  /** One row of manifest.json. */
  datatype ManifestRow = ManifestRow(id: Id, alreadyApplied: bool)

  /** One entry of batch-progress.json: the exit codes of the two phases. */
  datatype Row = Row(dryExit: Option<int>, applyExit: Option<int>)

  datatype StatusRow = StatusRow(pair: Pair, exit: int, rel: Option<string>, okIds: set<Id>)

  /** A recorded commit outcome; `sha` is absent for the "nothing to commit" no-op. */
  datatype Commit = Commit(sha: Option<string>)

  datatype PostBatch =
    | NoPost
    | Skipped
    | Post(failedIds: set<Id>,
           rollupIds: Option<set<Id>>,        // rollup_all == 0 exactly when present
           rollupLastExit: Option<int>,
           statusPairs: seq<StatusRow>,
           history: seq<StatusRow>,
           commit: Option<Commit>,
           commitError: Option<int>)

  datatype Progress = Progress(rows: map<Id, Row>, post: PostBatch)

  /** Everything a run does outside its own progress file. */
  datatype Effect =
    | Launch(id: Id, rc: int)
    | Rollup(ids: set<Id>, rc: int)
    | StatusRun(row: StatusRow)
    | CommitDone(commit: Commit)
    | CommitFailed(code: int)

  /** `lost` records that some process died after an effect and before the
      checkpoint of that effect. */
  datatype World = World(disk: Progress, log: seq<Effect>, life: nat, lost: bool)

  datatype CommitOutcome = Committed(commit: Commit) | Failed(code: int)

  /** What the child processes answer during one run. */
  datatype Env = Env(launchRc: Id -> int, rollupRc: int,
                     status: Pair -> (int, Option<string>), commit: CommitOutcome)

  /** What stays fixed for the life of a batch: the manifest, the pair each
      meeting's resolution names, and the order in which pairs are visited. */
  datatype Batch = Batch(rows: seq<ManifestRow>, pairOf: map<Id, Pair>, order: seq<Pair>)

  predicate Canonical(b: Batch) {
    && (forall i, j :: 0 <= i < j < |b.rows| ==> b.rows[i].id != b.rows[j].id)
    && (forall i, j :: 0 <= i < j < |b.order| ==> b.order[i] != b.order[j])
  }

  // ------------------------------------------------------------ primitives

  function Save(w: World, p: Progress): World {
    if w.life == 0 then w else w.(disk := p, life := w.life - 1)
  }

  function Perform(w: World, e: Effect): World {
    if w.life == 0 then w
    else w.(log := w.log + [e], life := w.life - 1, lost := w.lost || w.life == 1)
  }

  // ------------------------------------------------------------ derived sets

  function Entry(p: Progress, id: Id): Row {
    if id in p.rows then p.rows[id] else Row(None, None)
  }

  function Authorized(b: Batch, p: Progress): set<Id> {
    set i | 0 <= i < |b.rows| && !b.rows[i].alreadyApplied && Entry(p, b.rows[i].id).dryExit == Some(0) :: b.rows[i].id
  }

  function AllOk(b: Batch, p: Progress): set<Id> {
    set id | id in Authorized(b, p) && Entry(p, id).applyExit == Some(0)
  }

  function Attempted(b: Batch, p: Progress): set<Id> {
    set id | id in Authorized(b, p) && Entry(p, id).applyExit.Some?
  }

  /** Every meeting recorded as applied. */
  function Applied(p: Progress): set<Id> {
    set id | id in p.rows && p.rows[id].applyExit == Some(0)
  }

  function PairIds(b: Batch, ok: set<Id>, pair: Pair): set<Id> {
    set id | id in ok && id in b.pairOf && b.pairOf[id] == pair
  }

  predicate PostCommitted(p: Progress) {
    p.post.Post? && p.post.commit.Some?
  }

  predicate EffectsOk(p: Progress) {
    p.post.Post? && p.post.rollupIds.Some? &&
    forall k :: 0 <= k < |p.post.statusPairs| ==> p.post.statusPairs[k].exit == 0
  }

  // ------------------------------------------------------------ one run

  /** A process in flight: its in-memory progress, the world, and how many
      meetings it counts as failed. */
  datatype Run = Run(p: Progress, w: World, failed: nat)

  function Checkpoint(r: Run, p: Progress): Run {
    r.(p := p, w := Save(r.w, p))
  }

  function EffectThenCheckpoint(r: Run, e: Effect, p: Progress): Run {
    r.(p := p, w := Save(Perform(r.w, e), p))
  }

  function SetRow(p: Progress, id: Id, row: Row): Progress {
    p.(rows := p.rows[id := row])
  }

  function ApplyOne(m: ManifestRow, closed: bool, env: Env, r: Run): Run {
    if m.alreadyApplied then r
    else
      var e := Entry(r.p, m.id);
      var r0 := r.(p := SetRow(r.p, m.id, e));
      if e.dryExit != Some(0) || e.applyExit == Some(0) then r0
      else if closed then r0.(failed := r0.failed + 1)
      else
        var rc := env.launchRc(m.id);
        var r1 := EffectThenCheckpoint(r0, Launch(m.id, rc), SetRow(r0.p, m.id, e.(applyExit := Some(rc))));
        if rc == 0 then r1 else r1.(failed := r1.failed + 1)
  }

  function ApplyRows(b: Batch, i: nat, closed: bool, env: Env, r: Run): Run
    requires i <= |b.rows|
    decreases |b.rows| - i
  {
    if i == |b.rows| then r
    else ApplyRows(b, i + 1, closed, env, ApplyOne(b.rows[i], closed, env, r))
  }

  function Normalize(post: PostBatch): (n: PostBatch)
    ensures n.Post?
  {
    if post.Post? then post else Post({}, None, None, [], [], None, None)
  }

  function RollupStep(ok: set<Id>, env: Env, r: Run): (r': Run)
    requires r.p.post.Post?
    ensures r'.p.post.Post?
  {
    if r.p.post.rollupIds == Some(ok) then r
    else if env.rollupRc == 0 then
      EffectThenCheckpoint(r, Rollup(ok, 0), r.p.(post := r.p.post.(rollupIds := Some(ok), rollupLastExit := None)))
    else
      EffectThenCheckpoint(r, Rollup(ok, env.rollupRc), r.p.(post := r.p.post.(rollupLastExit := Some(env.rollupRc))))
  }

  /** Position of the row recorded for `pair`, or |rows| when there is none. */
  function Find(rows: seq<StatusRow>, pair: Pair): (k: nat)
    ensures k <= |rows|
    ensures k < |rows| ==> rows[k].pair == pair
    ensures forall j :: 0 <= j < k ==> rows[j].pair != pair
  {
    if rows == [] || rows[0].pair == pair then 0 else 1 + Find(rows[1..], pair)
  }

  /** The rows of every pair but one. */
  function Without(rows: seq<StatusRow>, pair: Pair): seq<StatusRow> {
    if rows == [] then []
    else if rows[0].pair == pair then Without(rows[1..], pair)
    else [rows[0]] + Without(rows[1..], pair)
  }

  function StatusStep(b: Batch, ok: set<Id>, pair: Pair, env: Env, r: Run): (r': Run)
    requires r.p.post.Post?
    ensures r'.p.post.Post?
  {
    var ids := PairIds(b, ok, pair);
    var rows := r.p.post.statusPairs;
    var k := Find(rows, pair);
    if ids == {} || (k < |rows| && rows[k].exit == 0 && rows[k].okIds == ids) then r
    else
      var row := StatusRow(pair, env.status(pair).0, env.status(pair).1, ids);
      EffectThenCheckpoint(r, StatusRun(row), r.p.(post := r.p.post.(
        history := r.p.post.history + (if k < |rows| then [rows[k]] else []),
        statusPairs := (if k < |rows| then Without(rows, pair) else rows) + [row])))
  }

  function StatusLoop(b: Batch, ok: set<Id>, i: nat, env: Env, r: Run): (r': Run)
    requires i <= |b.order| && r.p.post.Post?
    ensures r'.p.post.Post?
    decreases |b.order| - i
  {
    if i == |b.order| then r else StatusLoop(b, ok, i + 1, env, StatusStep(b, ok, b.order[i], env, r))
  }

  function CommitStep(env: Env, r: Run): (r': Run)
    requires r.p.post.Post?
    ensures r'.p.post.Post?
  {
    match env.commit
    case Committed(c) => EffectThenCheckpoint(r, CommitDone(c), r.p.(post := r.p.post.(commit := Some(c))))
    case Failed(code) => EffectThenCheckpoint(r, CommitFailed(code), r.p.(post := r.p.post.(commitError := Some(code))))
  }

  function PostStage(b: Batch, env: Env, r: Run): Run {
    var ok := AllOk(b, r.p);
    var started := r.p.(post := Normalize(r.p.post).(failedIds := Authorized(b, r.p) - ok));
    CommitStep(env, StatusLoop(b, ok, 0, env, RollupStep(ok, env, Checkpoint(r, started))))
  }

  function PostBatchStep(b: Batch, env: Env, r: Run): Run {
    if Authorized(b, r.p) == {} then
      if r.p.post.Skipped? then r else Checkpoint(r, r.p.(post := Skipped))
    else if Attempted(b, r.p) == Authorized(b, r.p) && !(PostCommitted(r.p) && EffectsOk(r.p)) then
      PostStage(b, env, r)
    else r
  }

  /** A whole apply run that passed its preflight. */
  function ApplyRun(b: Batch, env: Env, w: World): Run {
    var r := Checkpoint(Run(w.disk, w, 0), w.disk);
    PostBatchStep(b, env, ApplyRows(b, 0, PostCommitted(w.disk), env, r))
  }
}
