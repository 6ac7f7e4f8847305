/** Whole campaigns: any sequence of apply runs, each killed at any point, with
    dry-runs in between. */
module BatchCampaign {
  import opened Common
  import opened BatchApply
  import opened BatchApplySafety

  datatype Command =
    | ApplyCmd(life: nat, env: Env)
    | DryRunCmd(rows: map<Id, Row>)

  /** What a dry-run may do to the rows: it never touches an apply record and
      never re-attempts a row whose dry-run succeeded. */
  ghost predicate DryRunAllowed(before: map<Id, Row>, after: map<Id, Row>) {
    && (forall id :: id in before ==> id in after && after[id].applyExit == before[id].applyExit)
    && (forall id :: id in before && before[id].dryExit == Some(0) ==> after[id].dryExit == Some(0))
    && (forall id :: id in after && id !in before ==> after[id].applyExit == None)
  }

  ghost function Exec(b: Batch, w: World, c: Command): World {
    match c
    case ApplyCmd(life, env) => ApplyRun(b, env, w.(life := life)).w
    case DryRunCmd(rows) => if DryRunAllowed(w.disk.rows, rows) then w.(disk := w.disk.(rows := rows)) else w
  }

  ghost function Campaign(b: Batch, w: World, cmds: seq<Command>): World
    decreases |cmds|
  {
    if cmds == [] then w else Campaign(b, Exec(b, w, cmds[0]), cmds[1..])
  }

  const Fresh := World(Progress(map[], NoPost), [], 0, false)

  // ------------------------------------------------------------ what no run undoes

  ghost predicate Shape(b: Batch, p: Progress) {
    UniquePairs(p.post) && (p.post.Post? ==> Authorized(b, p) != {}) && StatusWithin(b, AllOk(b, p), p.post)
  }

  /** `q` can follow `p`. */
  ghost predicate Later(b: Batch, p: Progress, q: Progress) {
    && Shape(b, q)
    && (forall id :: Entry(p, id).dryExit == Some(0) ==> Entry(q, id).dryExit == Some(0))
    && (forall id :: Entry(p, id).applyExit == Some(0) ==> Entry(q, id).applyExit == Some(0))
    && (PostCommitted(p) ==> PostCommitted(q) && forall id :: Entry(q, id).applyExit == Entry(p, id).applyExit)
  }

  ghost predicate LogLater(closed: bool, log: seq<Effect>, log': seq<Effect>) {
    && log <= log'
    && (closed ==> forall k :: |log| <= k < |log'| ==> !log'[k].Launch?)
  }

  ghost predicate WorldLater(b: Batch, w: World, w': World) {
    Later(b, w.disk, w'.disk) && LogLater(PostCommitted(w.disk), w.log, w'.log)
  }

  /** A run in flight that started from `w`. */
  ghost predicate Steady(b: Batch, w: World, r: Run) {
    Later(b, w.disk, r.p) && WorldLater(b, w, r.w)
  }

  lemma CheckpointSteady(b: Batch, w: World, r: Run, e: Effect, p: Progress)
    requires Steady(b, w, r) && Later(b, w.disk, p)
    requires PostCommitted(w.disk) ==> !e.Launch?
    ensures Steady(b, w, EffectThenCheckpoint(r, e, p))
    ensures Steady(b, w, Checkpoint(r, p))
  {}

  /** More applied meetings, and every status row still speaks only of applied ones. */
  lemma WithinGrows(b: Batch, ok: set<Id>, ok': set<Id>, post: PostBatch)
    requires ok <= ok' && StatusWithin(b, ok, post)
    ensures StatusWithin(b, ok', post)
  {
    if post.Post? {
      forall row | row in post.statusPairs ensures {} < row.okIds <= PairIds(b, ok', row.pair) {
        assert PairIds(b, ok, row.pair) <= PairIds(b, ok', row.pair);
      }
    }
  }

  lemma AfterStatusWithin(b: Batch, ok: set<Id>, post: PostBatch, row: StatusRow)
    requires post.Post? && UniquePairs(post) && StatusWithin(b, ok, post) && {} < row.okIds <= PairIds(b, ok, row.pair)
    ensures UniquePairs(AfterStatus(post, row)) && StatusWithin(b, ok, AfterStatus(post, row))
  {
    AfterStatusUnique(post, row);
    forall x | x in AfterStatus(post, row).statusPairs && x != row ensures x in post.statusPairs {
      WithoutMembers(post.statusPairs, row.pair, x);
    }
  }

  lemma PostChangeSteady(b: Batch, w: World, p: Progress, q: Progress)
    requires Later(b, w.disk, p) && q.rows == p.rows && UniquePairs(q.post) && StatusWithin(b, AllOk(b, p), q.post)
    requires q.post.Post? ==> Authorized(b, p) != {}
    requires PostCommitted(p) ==> PostCommitted(q)
    ensures Later(b, w.disk, q)
  {
    SameRows(b, p, q);
  }

  lemma ApplyOneSteady(b: Batch, w: World, m: ManifestRow, env: Env, r: Run)
    requires Steady(b, w, r)
    ensures Steady(b, w, ApplyOne(m, PostCommitted(w.disk), env, r))
  {
    if !m.alreadyApplied {
      var e := Entry(r.p, m.id);
      var p0 := SetRow(r.p, m.id, e);
      EntriesDecideOk(b, r.p, p0);
      WithinGrows(b, AllOk(b, r.p), AllOk(b, p0), r.p.post);
      assert forall id :: Entry(p0, id) == Entry(r.p, id);
      assert Later(b, w.disk, p0);
      var rc := env.launchRc(m.id);
      var p1 := SetRow(p0, m.id, e.(applyExit := Some(rc)));
      if e.dryExit == Some(0) && e.applyExit != Some(0) && !PostCommitted(w.disk) {
        assert forall id :: Entry(p1, id) == if id == m.id then e.(applyExit := Some(rc)) else Entry(p0, id);
        EntriesDecideOk(b, p0, p1);
        WithinGrows(b, AllOk(b, p0), AllOk(b, p1), r.p.post);
        CheckpointSteady(b, w, r.(p := p0), Launch(m.id, rc), p1);
      }
    }
  }

  lemma {:induction false} ApplyRowsSteady(b: Batch, w: World, i: nat, env: Env, r: Run)
    requires i <= |b.rows| && Steady(b, w, r)
    ensures Steady(b, w, ApplyRows(b, i, PostCommitted(w.disk), env, r))
    decreases |b.rows| - i
  {
    if i < |b.rows| {
      ApplyOneSteady(b, w, b.rows[i], env, r);
      ApplyRowsSteady(b, w, i + 1, env, ApplyOne(b.rows[i], PostCommitted(w.disk), env, r));
    }
  }

  lemma {:induction false} StatusLoopSteady(b: Batch, w: World, ok: set<Id>, i: nat, env: Env, r: Run)
    requires i <= |b.order| && Steady(b, w, r) && r.p.post.Post? && ok == AllOk(b, r.p)
    ensures Steady(b, w, StatusLoop(b, ok, i, env, r))
    decreases |b.order| - i
  {
    if i < |b.order| {
      var pair := b.order[i];
      var r' := StatusStep(b, ok, pair, env, r);
      if r' != r {
        var row := StatusRow(pair, env.status(pair).0, env.status(pair).1, PairIds(b, ok, pair));
        assert r'.p.post == AfterStatus(r.p.post, row);
        AfterStatusWithin(b, ok, r.p.post, row);
        PostChangeSteady(b, w, r.p, r'.p);
        CheckpointSteady(b, w, r, StatusRun(row), r'.p);
        SameRows(b, r.p, r'.p);
      }
      StatusLoopSteady(b, w, ok, i + 1, env, r');
    }
  }

  lemma StartSteady(b: Batch, w: World, r: Run, failedIds: set<Id>)
    requires Steady(b, w, r) && Authorized(b, r.p) != {}
    ensures Steady(b, w, Checkpoint(r, r.p.(post := Normalize(r.p.post).(failedIds := failedIds))))
  {
    var started := r.p.(post := Normalize(r.p.post).(failedIds := failedIds));
    PostChangeSteady(b, w, r.p, started);
    CheckpointSteady(b, w, r, CommitFailed(0), started);
  }

  lemma RollupSteady(b: Batch, w: World, ok: set<Id>, env: Env, r: Run)
    requires Steady(b, w, r) && r.p.post.Post?
    ensures Steady(b, w, RollupStep(ok, env, r))
  {
    var r' := RollupStep(ok, env, r);
    PostChangeSteady(b, w, r.p, r'.p);
    CheckpointSteady(b, w, r, Rollup(ok, env.rollupRc), r'.p);
  }

  lemma RollupLeavesRows(ok: set<Id>, env: Env, r: Run)
    requires r.p.post.Post?
    ensures RollupStep(ok, env, r).p.rows == r.p.rows
  {}

  lemma CommitSteady(b: Batch, w: World, env: Env, r: Run)
    requires Steady(b, w, r) && r.p.post.Post?
    ensures Steady(b, w, CommitStep(env, r))
  {
    var r' := CommitStep(env, r);
    PostChangeSteady(b, w, r.p, r'.p);
    CheckpointSteady(b, w, r, match env.commit case Committed(c) => CommitDone(c) case Failed(code) => CommitFailed(code), r'.p);
  }

  lemma PostStageSteady(b: Batch, w: World, env: Env, r: Run)
    requires Steady(b, w, r) && Authorized(b, r.p) != {}
    ensures Steady(b, w, PostStage(b, env, r))
  {
    hide Steady, RollupStep, StatusLoop, CommitStep, Authorized, AllOk;
    var ok := AllOk(b, r.p);
    StartSteady(b, w, r, Authorized(b, r.p) - ok);
    var r1 := Checkpoint(r, r.p.(post := Normalize(r.p.post).(failedIds := Authorized(b, r.p) - ok)));
    RollupSteady(b, w, ok, env, r1);
    var r2 := RollupStep(ok, env, r1);
    RollupLeavesRows(ok, env, r1);
    SameRows(b, r.p, r2.p);
    StatusLoopSteady(b, w, ok, 0, env, r2);
    CommitSteady(b, w, env, StatusLoop(b, ok, 0, env, r2));
  }

  lemma ApplyRunSteady(b: Batch, env: Env, w: World)
    requires Shape(b, w.disk)
    ensures WorldLater(b, w, ApplyRun(b, env, w).w)
  {
    var r := Checkpoint(Run(w.disk, w, 0), w.disk);
    ApplyRowsSteady(b, w, 0, env, r);
    var r1 := ApplyRows(b, 0, PostCommitted(w.disk), env, r);
    if Authorized(b, r1.p) == {} {
      if !r1.p.post.Skipped? {
        PostChangeSteady(b, w, r1.p, r1.p.(post := Skipped));
        CheckpointSteady(b, w, r1, CommitFailed(0), r1.p.(post := Skipped));
      }
    } else if Attempted(b, r1.p) == Authorized(b, r1.p) && !(PostCommitted(r1.p) && EffectsOk(r1.p)) {
      PostStageSteady(b, w, env, r1);
    }
  }

  // ------------------------------------------------------------ the order of effects

  function Stage(e: Effect): nat {
    match e
    case Launch(_, _) => 0
    case Rollup(_, _) => 1
    case StatusRun(_) => 2
    case CommitDone(_) => 3
    case CommitFailed(_) => 3
  }

  /** From position `from` on: launches, then at most one rollup, then status runs, then
      at most one commit attempt, none of a stage above `n`. */
  ghost predicate InOrder(from: nat, log: seq<Effect>, n: nat) {
    && from <= |log| && (forall k :: from <= k < |log| ==> Stage(log[k]) <= n)
    && forall i, j :: from <= i < j < |log| ==>
         Stage(log[i]) < Stage(log[j]) || (Stage(log[i]) == Stage(log[j]) && (log[j].Launch? || log[j].StatusRun?))
  }

  lemma NextInOrder(from: nat, r: Run, e: Effect, p: Progress, n: nat)
    requires InOrder(from, r.w.log, n) && (n < Stage(e) || (n == Stage(e) && (e.Launch? || e.StatusRun?)))
    ensures InOrder(from, EffectThenCheckpoint(r, e, p).w.log, Stage(e))
  {}

  lemma MoreStages(from: nat, log: seq<Effect>, n: nat, m: nat)
    requires InOrder(from, log, n) && n <= m
    ensures InOrder(from, log, m)
  {}

  lemma {:induction false} RowsInOrder(b: Batch, from: nat, i: nat, closed: bool, env: Env, r: Run)
    requires i <= |b.rows| && InOrder(from, r.w.log, 0)
    ensures InOrder(from, ApplyRows(b, i, closed, env, r).w.log, 0)
    decreases |b.rows| - i
  {
    if i < |b.rows| {
      var m := b.rows[i];
      var e := Entry(r.p, m.id);
      var rc := env.launchRc(m.id);
      var p0 := SetRow(r.p, m.id, e);
      NextInOrder(from, r.(p := p0), Launch(m.id, rc), SetRow(p0, m.id, e.(applyExit := Some(rc))), 0);
      hide InOrder, EffectThenCheckpoint;
      RowsInOrder(b, from, i + 1, closed, env, ApplyOne(m, closed, env, r));
    }
  }

  lemma {:induction false} StatusInOrder(b: Batch, from: nat, ok: set<Id>, i: nat, env: Env, r: Run)
    requires i <= |b.order| && r.p.post.Post? && InOrder(from, r.w.log, 2)
    ensures InOrder(from, StatusLoop(b, ok, i, env, r).w.log, 2)
    decreases |b.order| - i
  {
    if i < |b.order| {
      var pair := b.order[i];
      var r' := StatusStep(b, ok, pair, env, r);
      var row := StatusRow(pair, env.status(pair).0, env.status(pair).1, PairIds(b, ok, pair));
      NextInOrder(from, r, StatusRun(row), r'.p, 2);
      hide InOrder, EffectThenCheckpoint, PairIds, Find, Without;
      StatusInOrder(b, from, ok, i + 1, env, r');
    }
  }

  lemma PostStageInOrder(b: Batch, from: nat, env: Env, r: Run)
    requires InOrder(from, r.w.log, 0)
    ensures InOrder(from, PostStage(b, env, r).w.log, 3)
  {
    var ok := AllOk(b, r.p);
    var r1 := Checkpoint(r, r.p.(post := Normalize(r.p.post).(failedIds := Authorized(b, r.p) - ok)));
    var r2 := RollupStep(ok, env, r1);
    assert r1.w.log == r.w.log;
    NextInOrder(from, r1, Rollup(ok, env.rollupRc), r2.p, 0);
    MoreStages(from, r1.w.log, 0, 1);
    hide InOrder, EffectThenCheckpoint, StatusLoop, AllOk, Authorized;
    MoreStages(from, r2.w.log, 1, 2);
    StatusInOrder(b, from, ok, 0, env, r2);
    var r3 := StatusLoop(b, ok, 0, env, r2);
    NextInOrder(from, r3, match env.commit case Committed(c) => CommitDone(c) case Failed(code) => CommitFailed(code), CommitStep(env, r3).p, 2);
  }

  /** The effects of one run, wherever it is killed: all launches, then at most one
      rollup, then the status runs, then at most one commit attempt, and nothing after. */
  lemma RunKeepsStageOrder(b: Batch, env: Env, w: World)
    ensures InOrder(|w.log|, ApplyRun(b, env, w).w.log, 3)
  {
    var r := Checkpoint(Run(w.disk, w, 0), w.disk);
    RowsInOrder(b, |w.log|, 0, PostCommitted(w.disk), env, r);
    var r1 := ApplyRows(b, 0, PostCommitted(w.disk), env, r);
    PostStageInOrder(b, |w.log|, env, r1);
    MoreStages(|w.log|, r1.w.log, 0, 3);
    hide InOrder, PostStage, ApplyRows, Authorized, Attempted;
    assert PostBatchStep(b, env, r1).w.log == r1.w.log || PostBatchStep(b, env, r1) == PostStage(b, env, r1);
  }

  // ------------------------------------------------------------ campaigns

  lemma ExecSteady(b: Batch, w: World, c: Command)
    requires Shape(b, w.disk)
    ensures WorldLater(b, w, Exec(b, w, c))
  {
    match c
    case ApplyCmd(life, env) => ApplyRunSteady(b, env, w.(life := life));
    case DryRunCmd(rows) =>
      if DryRunAllowed(w.disk.rows, rows) {
        var p := w.disk.(rows := rows);
        EntriesDecideOk(b, w.disk, p);
        WithinGrows(b, AllOk(b, w.disk), AllOk(b, p), p.post);
      }
  }

  lemma {:induction false} CampaignSteady(b: Batch, w: World, cmds: seq<Command>)
    requires Shape(b, w.disk)
    ensures WorldLater(b, w, Campaign(b, w, cmds))
    decreases |cmds|
  {
    if cmds != [] {
      ExecSteady(b, w, cmds[0]);
      CampaignSteady(b, Exec(b, w, cmds[0]), cmds[1..]);
    }
  }

  /** Once post-batch has recorded a commit, nothing is launched again and the
      applied set is frozen, whatever runs and crashes follow. */
  lemma CommitFreezesBatch(b: Batch, before: seq<Command>, cmds: seq<Command>)
    requires PostCommitted(Campaign(b, Fresh, before).disk)
    ensures var w := Campaign(b, Fresh, before); var w' := Campaign(b, w, cmds);
      && PostCommitted(w'.disk)
      && Applied(w'.disk) == Applied(w.disk)
      && w.log <= w'.log
      && forall k :: |w.log| <= k < |w'.log| ==> !w'.log[k].Launch?
  {
    CampaignSteady(b, Fresh, before);
    var w := Campaign(b, Fresh, before);
    CampaignSteady(b, w, cmds);
    var w' := Campaign(b, w, cmds);
    forall id ensures id in Applied(w'.disk) <==> id in Applied(w.disk) {
      assert Entry(w'.disk, id).applyExit == Entry(w.disk, id).applyExit;
    }
  }

  /** In every crash state the applied set has only grown and no pair has two rows. */
  lemma AppliedOnlyGrows(b: Batch, before: seq<Command>, cmds: seq<Command>)
    ensures var w := Campaign(b, Fresh, before); var w' := Campaign(b, w, cmds);
      Applied(w.disk) <= Applied(w'.disk) && UniquePairs(w'.disk.post)
  {
    CampaignSteady(b, Fresh, before);
    var w := Campaign(b, Fresh, before);
    CampaignSteady(b, w, cmds);
    forall id | id in Applied(w.disk) ensures id in Applied(Campaign(b, w, cmds).disk) {
      assert Entry(w.disk, id).applyExit == Some(0);
    }
  }

  lemma ExecKeepsSound(b: Batch, w: World, c: Command)
    requires !w.lost ==> Sound(b, w.disk, w.log)
    ensures var w' := Exec(b, w, c); !w'.lost ==> Sound(b, w'.disk, w'.log)
  {
    match c
    case ApplyCmd(life, env) => ApplyRunKeepsSafe(b, env, w.(life := life));
    case DryRunCmd(rows) =>
      if DryRunAllowed(w.disk.rows, rows) {
        var p := w.disk.(rows := rows);
        EntriesDecideOk(b, w.disk, p);
        if !w.lost { RowsMayGrow(b, w.disk, p, w.log); }
      }
  }

  lemma {:induction false} CampaignKeepsSound(b: Batch, w: World, cmds: seq<Command>)
    requires !w.lost ==> Sound(b, w.disk, w.log)
    ensures var w' := Campaign(b, w, cmds); !w'.lost ==> Sound(b, w'.disk, w'.log)
    decreases |cmds|
  {
    if cmds != [] {
      ExecKeepsSound(b, w, cmds[0]);
      CampaignKeepsSound(b, Exec(b, w, cmds[0]), cmds[1..]);
    }
  }

  /** Unless some effect lost its checkpoint: rollup succeeds at most once per
      set of applied meetings, the status run of a pair at most once per set of
      contributing meetings, nothing is launched after a commit, and every status
      record is either current or kept in the history. */
  lemma EffectsAtMostOncePerSet(b: Batch, cmds: seq<Command>)
    requires !Campaign(b, Fresh, cmds).lost
    ensures var w := Campaign(b, Fresh, cmds);
      && (forall i, j :: 0 <= i < j < |w.log| && IsRollup(w.log[i]) && IsRollup(w.log[j]) ==> w.log[i].ids != w.log[j].ids)
      && (forall i, j, pair {:trigger IsStatus(w.log[i], pair), IsStatus(w.log[j], pair)} ::
            0 <= i < j < |w.log| && IsStatus(w.log[i], pair) && IsStatus(w.log[j], pair) ==> w.log[i].row.okIds != w.log[j].row.okIds)
      && NoLaunchAfterCommit(w.log)
      && StatusConserved(w.disk.post, w.log)
  {
    assert Sound(b, Fresh.disk, Fresh.log);
    CampaignKeepsSound(b, Fresh, cmds);
  }

  predicate IsCommit(e: Effect) { e.CommitDone? || e.CommitFailed? }

  /** No commit was attempted after position `k`. */
  ghost predicate LastAttempt(log: seq<Effect>, k: nat) {
    k < |log| && IsCommit(log[k]) && forall j :: k < j < |log| ==> !IsCommit(log[j])
  }

  lemma {:induction false} LastCommitAt(log: seq<Effect>, k: nat)
    requires LastAttempt(log, k)
    ensures LastCommit(log) == if log[k].CommitDone? then Some(log[k].commit) else LastCommit(log[..k])
    decreases |log|
  {
    if k < |log| - 1 {
      var front := log[..|log| - 1];
      assert front[k] == log[k] && forall j :: k < j < |front| ==> front[j] == log[j];
      assert front[..k] == log[..k];
      LastCommitAt(front, k);
    }
  }

  /** The recorded commit is the outcome of the last attempt when that succeeded; when
      it failed, the record of the last success before it is left standing. */
  lemma RecordIsLastSuccess(b: Batch, cmds: seq<Command>, k: nat)
    requires !Campaign(b, Fresh, cmds).lost && LastAttempt(Campaign(b, Fresh, cmds).log, k)
    ensures var w := Campaign(b, Fresh, cmds);
      RecordedCommit(w.disk.post) == if w.log[k].CommitDone? then Some(w.log[k].commit) else LastCommit(w.log[..k])
  {
    assert Sound(b, Fresh.disk, Fresh.log);
    CampaignKeepsSound(b, Fresh, cmds);
    LastCommitAt(Campaign(b, Fresh, cmds).log, k);
  }

  // ------------------------------------------------------------ the exit code

  predicate Owed(m: ManifestRow, p: Progress) {
    !m.alreadyApplied && Entry(p, m.id).dryExit == Some(0) && Entry(p, m.id).applyExit != Some(0)
  }

  lemma {:induction false} RowsLeaveOthers(b: Batch, i: nat, closed: bool, env: Env, r: Run, id: Id)
    requires i <= |b.rows| && forall j :: i <= j < |b.rows| ==> b.rows[j].id != id
    ensures Entry(ApplyRows(b, i, closed, env, r).p, id) == Entry(r.p, id)
    decreases |b.rows| - i
  {
    if i < |b.rows| { RowsLeaveOthers(b, i + 1, closed, env, ApplyOne(b.rows[i], closed, env, r), id); }
  }

  ghost function OwedFrom(b: Batch, i: nat, p: Progress): set<Id> {
    set j | i <= j < |b.rows| && Owed(b.rows[j], p) :: b.rows[j].id
  }

  lemma OwedFromNext(b: Batch, i: nat, p: Progress)
    requires Canonical(b) && i < |b.rows|
    ensures |OwedFrom(b, i, p)| == |OwedFrom(b, i + 1, p)| + if Owed(b.rows[i], p) then 1 else 0
  {
    hide Owed;
    assert OwedFrom(b, i, p) == OwedFrom(b, i + 1, p) + if Owed(b.rows[i], p) then {b.rows[i].id} else {};
    assert b.rows[i].id !in OwedFrom(b, i + 1, p);
  }

  /** Failed are counted exactly the meetings still owed an apply afterwards. */
  lemma {:induction false} FailedCountsOwed(b: Batch, i: nat, closed: bool, env: Env, r: Run)
    requires Canonical(b) && i <= |b.rows|
    ensures var r' := ApplyRows(b, i, closed, env, r); r'.failed == r.failed + |OwedFrom(b, i, r'.p)|
    decreases |b.rows| - i
  {
    var r' := ApplyRows(b, i, closed, env, r);
    if i == |b.rows| {
      assert OwedFrom(b, i, r'.p) == {};
    } else {
      var r1 := ApplyOne(b.rows[i], closed, env, r);
      assert r1.failed == r.failed + if Owed(b.rows[i], r1.p) then 1 else 0;
      FailedCountsOwed(b, i + 1, closed, env, r1);
      RowsLeaveOthers(b, i + 1, closed, env, r1, b.rows[i].id);
      OwedFromNext(b, i, r'.p);
      hide ApplyOne, OwedFrom;
    }
  }

  lemma PostBatchLeavesRows(b: Batch, env: Env, r: Run)
    ensures PostBatchStep(b, env, r).p.rows == r.p.rows && PostBatchStep(b, env, r).failed == r.failed
  {
    if Authorized(b, r.p) != {} && Attempted(b, r.p) == Authorized(b, r.p) && !(PostCommitted(r.p) && EffectsOk(r.p)) {
      var ok := AllOk(b, r.p);
      var started := r.p.(post := Normalize(r.p.post).(failedIds := Authorized(b, r.p) - ok));
      var r2 := RollupStep(ok, env, Checkpoint(r, started));
      StatusLoopLeavesRows(b, ok, 0, env, r2);
    }
  }

  lemma {:induction false} StatusLoopLeavesRows(b: Batch, ok: set<Id>, i: nat, env: Env, r: Run)
    requires i <= |b.order| && r.p.post.Post?
    ensures var r' := StatusLoop(b, ok, i, env, r); r'.p.rows == r.p.rows && r'.failed == r.failed
    decreases |b.order| - i
  {
    if i < |b.order| { StatusLoopLeavesRows(b, ok, i + 1, env, StatusStep(b, ok, b.order[i], env, r)); }
  }

  lemma OwedAreUnapplied(b: Batch, p: Progress)
    ensures OwedFrom(b, 0, p) == Authorized(b, p) - AllOk(b, p) && AllOk(b, p) <= Authorized(b, p)
  {
    forall id | id in Authorized(b, p) - AllOk(b, p) ensures id in OwedFrom(b, 0, p) {
      var j :| 0 <= j < |b.rows| && !b.rows[j].alreadyApplied && Entry(p, b.rows[j].id).dryExit == Some(0) && b.rows[j].id == id;
      assert Owed(b.rows[j], p);
    }
  }

  /** A run counts as failed exactly the authorized meetings it leaves unapplied, so its
      exit code is 0 exactly when it leaves none. */
  lemma ExitZeroMeansAllApplied(b: Batch, env: Env, w: World)
    requires Canonical(b)
    ensures var r := ApplyRun(b, env, w);
      r.failed == |Authorized(b, r.p) - AllOk(b, r.p)| && (r.failed == 0 <==> AllOk(b, r.p) == Authorized(b, r.p))
  {
    var r0 := Checkpoint(Run(w.disk, w, 0), w.disk);
    var r1 := ApplyRows(b, 0, PostCommitted(w.disk), env, r0);
    FailedCountsOwed(b, 0, PostCommitted(w.disk), env, r0);
    PostBatchLeavesRows(b, env, r1);
    SameRows(b, r1.p, PostBatchStep(b, env, r1).p);
    OwedAreUnapplied(b, r1.p);
    hide Authorized, AllOk, OwedFrom, PostBatchStep, ApplyRows;
  }

  // ------------------------------------------------------------ closed batches

  lemma {:induction false} ClosedRowsDoNothing(b: Batch, i: nat, env: Env, r: Run)
    requires i <= |b.rows|
    ensures var r' := ApplyRows(b, i, true, env, r);
      r'.w == r.w && r'.p.post == r.p.post && forall id :: Entry(r'.p, id) == Entry(r.p, id)
    decreases |b.rows| - i
  {
    if i < |b.rows| { ClosedRowsDoNothing(b, i + 1, env, ApplyOne(b.rows[i], true, env, r)); }
  }

  lemma SameEntries(b: Batch, p: Progress, q: Progress)
    requires forall id :: Entry(p, id) == Entry(q, id)
    ensures Authorized(b, p) == Authorized(b, q) && AllOk(b, p) == AllOk(b, q) && Attempted(b, p) == Attempted(b, q)
  {
    EntriesDecideOk(b, p, q);
    EntriesDecideOk(b, q, p);
  }

  /** What a run of a committed batch does before its post-batch stage: nothing. */
  lemma CommittedPrefix(b: Batch, env: Env, w: World) returns (r: Run)
    requires PostCommitted(w.disk)
    ensures ApplyRun(b, env, w) == PostBatchStep(b, env, r) && r.p.post == w.disk.post
    ensures r.w == Save(w, w.disk) && r.w.disk == w.disk && r.w.log == w.log
    ensures Authorized(b, r.p) == Authorized(b, w.disk) && AllOk(b, r.p) == AllOk(b, w.disk) && Attempted(b, r.p) == Attempted(b, w.disk)
  {
    var r0 := Checkpoint(Run(w.disk, w, 0), w.disk);
    ClosedRowsDoNothing(b, 0, env, r0);
    r := ApplyRows(b, 0, true, env, r0);
    SameEntries(b, r.p, w.disk);
  }

  /** A closed batch (committed, every effect verified) is never acted on again. */
  lemma ClosedBatchIsLeftAlone(b: Batch, env: Env, w: World)
    requires PostCommitted(w.disk) && EffectsOk(w.disk) && Authorized(b, w.disk) != {}
    ensures var w' := ApplyRun(b, env, w).w; w'.log == w.log && w'.disk == w.disk
  {
    var r := CommittedPrefix(b, env, w);
  }

  // ------------------------------------------------------------ a clean run finishes

  predicate AllSucceed(env: Env, b: Batch) {
    && (forall i :: 0 <= i < |b.rows| ==> env.launchRc(b.rows[i].id) == 0)
    && env.rollupRc == 0
    && (forall i :: 0 <= i < |b.order| ==> env.status(b.order[i]).0 == 0)
    && env.commit.Committed?
  }

  lemma {:induction false} RowsSpend(b: Batch, i: nat, env: Env, r: Run)
    requires i <= |b.rows| && AllSucceed(env, b) && r.w.life > 2 * (|b.rows| - i)
    ensures var r' := ApplyRows(b, i, false, env, r);
      r'.w.life >= r.w.life - 2 * (|b.rows| - i) && r'.failed == r.failed && r'.p.post == r.p.post
    decreases |b.rows| - i
  {
    if i < |b.rows| { RowsSpend(b, i + 1, env, ApplyOne(b.rows[i], false, env, r)); }
  }

  /** Rows that still report a failure belong to pairs not visited yet. */
  ghost predicate FailuresAhead(b: Batch, i: nat, post: PostBatch)
    requires i <= |b.order| && post.Post?
  {
    forall row :: row in post.statusPairs && row.exit != 0 ==> row.pair in b.order[i..]
  }

  lemma {:induction false} StatusLoopClears(b: Batch, ok: set<Id>, i: nat, env: Env, r: Run)
    requires i <= |b.order| && AllSucceed(env, b) && r.w.life > 2 * (|b.order| - i)
    requires r.p.post.Post? && UniquePairs(r.p.post) && StatusWithin(b, ok, r.p.post) && FailuresAhead(b, i, r.p.post)
    ensures var r' := StatusLoop(b, ok, i, env, r);
      && r'.w.life >= r.w.life - 2 * (|b.order| - i)
      && r'.p.post.rollupIds == r.p.post.rollupIds
      && forall k :: 0 <= k < |r'.p.post.statusPairs| ==> r'.p.post.statusPairs[k].exit == 0
    decreases |b.order| - i
  {
    var post := r.p.post;
    if i == |b.order| {
      forall k | 0 <= k < |post.statusPairs| ensures post.statusPairs[k].exit == 0 { assert post.statusPairs[k] in post.statusPairs; }
    } else {
      var pair, ids := b.order[i], PairIds(b, ok, b.order[i]);
      var row := StatusRow(pair, env.status(pair).0, env.status(pair).1, ids);
      var r1 := StatusStep(b, ok, pair, env, r);
      assert b.order[i..] == [pair] + b.order[i + 1..];
      if r1 != r {
        assert r1.p.post == AfterStatus(post, row);
        AfterStatusUnique(post, row);
        forall x | x in r1.p.post.statusPairs ensures x == row || (x in post.statusPairs && x.pair != pair) { WithoutMembers(post.statusPairs, pair, x); }
      } else {
        forall x | x in post.statusPairs && x.pair == pair ensures x.exit == 0 {
          var k :| 0 <= k < |post.statusPairs| && post.statusPairs[k] == x;
          assert k == Find(post.statusPairs, pair);
        }
      }
      StatusLoopClears(b, ok, i + 1, env, r1);
    }
  }

  lemma PostStageCloses(b: Batch, env: Env, r: Run)
    requires AllSucceed(env, b) && UniquePairs(r.p.post) && StatusWithin(b, AllOk(b, r.p), r.p.post)
    requires forall id :: id in b.pairOf ==> b.pairOf[id] in b.order
    requires r.w.life > 2 * |b.order| + 5
    ensures var r' := PostStage(b, env, r); PostCommitted(r'.w.disk) && EffectsOk(r'.w.disk) && r'.w.disk == r'.p
  {
    var ok := AllOk(b, r.p);
    var started := r.p.(post := Normalize(r.p.post).(failedIds := Authorized(b, r.p) - ok));
    var r1 := Checkpoint(r, started);
    var r2 := RollupStep(ok, env, r1);
    assert r2.p.post.rollupIds == Some(ok);
    forall row | row in r2.p.post.statusPairs ensures row.pair in b.order[0..] {
      var id :| id in row.okIds;
      assert id in PairIds(b, ok, row.pair);
    }
    StatusLoopClears(b, ok, 0, env, r2);
  }

  /** From any state a campaign reaches, checkpoints lost or not: a run that is not
      killed and whose children all succeed applies every authorized meeting, closes
      the batch and exits 0. */
  lemma CleanRunClosesBatch(b: Batch, env: Env, before: seq<Command>, life: nat)
    requires Canonical(b) && AllSucceed(env, b)
    requires forall id :: id in b.pairOf ==> b.pairOf[id] in b.order
    requires var p := Campaign(b, Fresh, before).disk; !PostCommitted(p) && Authorized(b, p) != {}
    requires life > 2 * |b.rows| + 2 * |b.order| + 6
    ensures var r := ApplyRun(b, env, Campaign(b, Fresh, before).(life := life));
      r.failed == 0 && AllOk(b, r.w.disk) == Authorized(b, r.w.disk) && PostCommitted(r.w.disk) && EffectsOk(r.w.disk)
  {
    CampaignSteady(b, Fresh, before);
    CleanRunCloses(b, env, Campaign(b, Fresh, before).(life := life));
  }

  lemma CleanRunCloses(b: Batch, env: Env, w: World)
    requires Canonical(b) && AllSucceed(env, b) && Shape(b, w.disk)
    requires forall id :: id in b.pairOf ==> b.pairOf[id] in b.order
    requires !PostCommitted(w.disk) && Authorized(b, w.disk) != {}
    requires w.life > 2 * |b.rows| + 2 * |b.order| + 6
    ensures var r := ApplyRun(b, env, w);
      r.failed == 0 && AllOk(b, r.w.disk) == Authorized(b, r.w.disk) && PostCommitted(r.w.disk) && EffectsOk(r.w.disk)
  {
    var r0 := Checkpoint(Run(w.disk, w, 0), w.disk);
    var r1 := ApplyRows(b, 0, false, env, r0);
    RowsSpend(b, 0, env, r0);
    ApplyRowsSteady(b, w, 0, env, r0);
    assert Authorized(b, r1.p) != {} by { EntriesDecideOk(b, w.disk, r1.p); }
    PostBatchLeavesRows(b, env, r1);
    ExitZeroMeansAllApplied(b, env, w);
    SameRows(b, r1.p, ApplyRun(b, env, w).p);
    assert Attempted(b, r1.p) == Authorized(b, r1.p) by {
      assert AllOk(b, r1.p) <= Attempted(b, r1.p) <= Authorized(b, r1.p);
    }
    PostStageCloses(b, env, r1);
  }

  /** A clean run over a committed batch whose effects are outstanding retries them to
      the end exactly when every authorized row has been attempted: a meeting whose
      dry-run came after the commit is never launched and keeps the batch open. */
  lemma CommittedReentryClosesIff(b: Batch, env: Env, before: seq<Command>, life: nat)
    requires AllSucceed(env, b) && PostCommitted(Campaign(b, Fresh, before).disk)
    requires forall id :: id in b.pairOf ==> b.pairOf[id] in b.order
    requires life > 2 * |b.order| + 6
    ensures var w := Campaign(b, Fresh, before).(life := life);
      EffectsOk(ApplyRun(b, env, w).w.disk) <==> EffectsOk(w.disk) || Attempted(b, w.disk) == Authorized(b, w.disk)
  {
    CampaignSteady(b, Fresh, before);
    var w := Campaign(b, Fresh, before).(life := life);
    var r := CommittedPrefix(b, env, w);
    if Attempted(b, w.disk) == Authorized(b, w.disk) && !EffectsOk(w.disk) { PostStageCloses(b, env, r); }
  }

  /** Once a commit is recorded while some authorized row is unattempted, no sequence of
      runs and dry-runs changes the post-batch record or has any further effect. */
  lemma {:induction false} LateRowFreezesPostBatch(b: Batch, w: World, cmds: seq<Command>)
    requires PostCommitted(w.disk) && Attempted(b, w.disk) != Authorized(b, w.disk)
    ensures Campaign(b, w, cmds).disk.post == w.disk.post && Campaign(b, w, cmds).log == w.log
    decreases |cmds|
  {
    if cmds != [] {
      var w' := Exec(b, w, cmds[0]);
      var id :| id in Authorized(b, w.disk) && id !in Attempted(b, w.disk);
      match cmds[0] {
        case ApplyCmd(life, env) =>
          var r := CommittedPrefix(b, env, w.(life := life));
        case DryRunCmd(rows) =>
          EntriesDecideOk(b, w.disk, w'.disk);
          assert Entry(w'.disk, id).applyExit == Entry(w.disk, id).applyExit;
          assert id in Authorized(b, w'.disk) && id !in Attempted(b, w'.disk);
      }
      LateRowFreezesPostBatch(b, w', cmds[1..]);
    }
  }
}
