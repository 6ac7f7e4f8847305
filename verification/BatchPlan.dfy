/** What an apply run does, from the progress it starts with: the effects planned
    from that progress and the children's answers, in their order, cut short only
    where the process dies.  And what the progress file says of them afterwards:
    exactly what the effect log says. */
module BatchPlan {
  import opened Common
  import opened BatchApply
  import opened BatchApplySafety
  import opened BatchCampaign

  // ------------------------------------------------------------ the log read back

  /** What the last launch of a meeting answered. */
  function LastLaunch(log: seq<Effect>, id: Id): Option<int> {
    if log == [] then None
    else
      var e := log[|log| - 1];
      if e.Launch? && e.id == id then Some(e.rc) else LastLaunch(log[..|log| - 1], id)
  }

  /** The meetings of the last rollup that succeeded. */
  function LastRollup(log: seq<Effect>): Option<set<Id>> {
    if log == [] then None
    else
      var e := log[|log| - 1];
      if e.Rollup? && e.rc == 0 then Some(e.ids) else LastRollup(log[..|log| - 1])
  }

  /** The answer of the last rollup if it failed. */
  function RollupError(log: seq<Effect>): Option<int> {
    if log == [] then None
    else
      var e := log[|log| - 1];
      if e.Rollup? then (if e.rc == 0 then None else Some(e.rc)) else RollupError(log[..|log| - 1])
  }

  /** The last status run of a pair. */
  function LastStatus(log: seq<Effect>, pair: Pair): Option<StatusRow> {
    if log == [] then None
    else
      var e := log[|log| - 1];
      if e.StatusRun? && e.row.pair == pair then Some(e.row) else LastStatus(log[..|log| - 1], pair)
  }

  /** What git answered when a commit last failed. */
  function CommitError(log: seq<Effect>): Option<int> {
    if log == [] then None
    else
      var e := log[|log| - 1];
      if e.CommitFailed? then Some(e.code) else CommitError(log[..|log| - 1])
  }

  /** The row that stands for a pair. */
  function Standing(post: PostBatch, pair: Pair): Option<StatusRow> {
    if post.Post? && Find(post.statusPairs, pair) < |post.statusPairs| then Some(post.statusPairs[Find(post.statusPairs, pair)]) else None
  }

  ghost predicate RowsReplay(p: Progress, log: seq<Effect>) {
    forall id :: Entry(p, id).applyExit == LastLaunch(log, id)
  }

  ghost predicate PostReplays(post: PostBatch, log: seq<Effect>) {
    && (if post.Post? then
          post.rollupIds == LastRollup(log) && post.rollupLastExit == RollupError(log) && post.commit == LastCommit(log) && post.commitError == CommitError(log)
        else
          LastRollup(log).None? && RollupError(log).None? && LastCommit(log).None? && CommitError(log).None?)
    && forall pair :: Standing(post, pair) == LastStatus(log, pair)
  }

  /** Row by row and field by field, the progress file is the log read back. */
  ghost predicate Replays(p: Progress, log: seq<Effect>) {
    RowsReplay(p, log) && PostReplays(p.post, log)
  }

  ghost predicate Replayed(r: Run) {
    && (!r.w.lost ==> Replays(r.w.disk, r.w.log))
    && (!r.w.lost && r.w.life > 0 ==> Replays(r.p, r.w.log))
  }

  lemma OneMoreEffect(log: seq<Effect>, e: Effect)
    ensures (log + [e])[..|log|] == log && (log + [e])[|log|] == e
  {}

  lemma LaunchReplays(log: seq<Effect>, e: Effect)
    requires e.Launch?
    ensures forall id :: LastLaunch(log + [e], id) == if id == e.id then Some(e.rc) else LastLaunch(log, id)
    ensures forall post :: PostReplays(post, log) ==> PostReplays(post, log + [e])
  {
    OneMoreEffect(log, e);
    hide Standing;
  }

  lemma PostEffectKeepsRows(p: Progress, log: seq<Effect>, e: Effect, q: Progress)
    requires RowsReplay(p, log) && !e.Launch? && q.rows == p.rows
    ensures RowsReplay(q, log + [e])
  {
    OneMoreEffect(log, e);
    forall id ensures Entry(q, id).applyExit == LastLaunch(log + [e], id) { assert Entry(q, id) == Entry(p, id); }
  }

  lemma EffectReplays(r: Run, e: Effect, p: Progress)
    requires Replayed(r) && (r.w.life > 1 && !r.w.lost ==> Replays(p, r.w.log + [e]))
    ensures Replayed(EffectThenCheckpoint(r, e, p))
  {}

  lemma ApplyOneReplays(m: ManifestRow, closed: bool, env: Env, r: Run)
    requires Replayed(r)
    ensures Replayed(ApplyOne(m, closed, env, r))
  {
    if !m.alreadyApplied {
      var e := Entry(r.p, m.id);
      var p0 := SetRow(r.p, m.id, e);
      var rc := env.launchRc(m.id);
      var p1 := SetRow(p0, m.id, e.(applyExit := Some(rc)));
      assert forall id :: Entry(p0, id) == Entry(r.p, id);
      assert forall id :: Entry(p1, id) == if id == m.id then e.(applyExit := Some(rc)) else Entry(p0, id);
      hide PostReplays, LastLaunch;
      LaunchReplays(r.w.log, Launch(m.id, rc));
      assert Replayed(r.(p := p0));
      EffectReplays(r.(p := p0), Launch(m.id, rc), p1);
    }
  }

  lemma {:induction false} ApplyRowsReplay(b: Batch, i: nat, closed: bool, env: Env, r: Run)
    requires i <= |b.rows| && Replayed(r)
    ensures Replayed(ApplyRows(b, i, closed, env, r))
    decreases |b.rows| - i
  {
    if i < |b.rows| {
      ApplyOneReplays(b.rows[i], closed, env, r);
      ApplyRowsReplay(b, i + 1, closed, env, ApplyOne(b.rows[i], closed, env, r));
    }
  }

  lemma RollupReplays(ok: set<Id>, env: Env, r: Run)
    requires r.p.post.Post? && Replayed(r)
    ensures Replayed(RollupStep(ok, env, r))
  {
    if r.p.post.rollupIds != Some(ok) {
      var r' := RollupStep(ok, env, r);
      var e := Rollup(ok, env.rollupRc);
      if r.w.life > 1 && !r.w.lost {
        OneMoreEffect(r.w.log, e);
        PostEffectKeepsRows(r.p, r.w.log, e, r'.p);
      }
      EffectReplays(r, e, r'.p);
    }
  }

  lemma AfterStatusStands(post: PostBatch, row: StatusRow)
    requires post.Post? && UniquePairs(post)
    ensures forall pair :: Standing(AfterStatus(post, row), pair) == if pair == row.pair then Some(row) else Standing(post, pair)
  {
    AfterStatusUnique(post, row);
    var after := AfterStatus(post, row);
    forall pair ensures Standing(after, pair) == if pair == row.pair then Some(row) else Standing(post, pair) {
      forall x ensures x in after.statusPairs <==> x == row || (x in post.statusPairs && x.pair != row.pair) {
        WithoutMembers(post.statusPairs, row.pair, x);
      }
      StandingIff(after, pair);
      StandingIff(post, pair);
    }
  }

  /** With unique pairs, the standing row is the only one of its pair. */
  lemma StandingIff(post: PostBatch, pair: Pair)
    requires post.Post? && UniquePairs(post)
    ensures Standing(post, pair).Some? ==> Standing(post, pair).value in post.statusPairs && Standing(post, pair).value.pair == pair
    ensures forall x :: x in post.statusPairs && x.pair == pair ==> Standing(post, pair) == Some(x)
  {
    forall x | x in post.statusPairs && x.pair == pair ensures Standing(post, pair) == Some(x) {
      var k :| 0 <= k < |post.statusPairs| && post.statusPairs[k] == x;
      assert k == Find(post.statusPairs, pair);
    }
  }

  lemma StatusReplays(post: PostBatch, log: seq<Effect>, row: StatusRow)
    requires post.Post? && UniquePairs(post) && PostReplays(post, log)
    ensures PostReplays(AfterStatus(post, row), log + [StatusRun(row)])
  {
    OneMoreEffect(log, StatusRun(row));
    AfterStatusStands(post, row);
    hide Standing, Find, Without;
  }

  lemma StatusStepReplays(b: Batch, ok: set<Id>, pair: Pair, env: Env, r: Run)
    requires r.p.post.Post? && Replayed(r) && UniquePairs(r.p.post)
    ensures var r' := StatusStep(b, ok, pair, env, r); Replayed(r') && UniquePairs(r'.p.post)
  {
    var r' := StatusStep(b, ok, pair, env, r);
    var row := StatusRow(pair, env.status(pair).0, env.status(pair).1, PairIds(b, ok, pair));
    if r' != r {
      assert r'.p.post == AfterStatus(r.p.post, row) && r'.p.rows == r.p.rows;
      AfterStatusUnique(r.p.post, row);
      hide PostReplays, RowsReplay, AfterStatus, UniquePairs;
      if r.w.life > 1 && !r.w.lost {
        StatusReplays(r.p.post, r.w.log, row);
        PostEffectKeepsRows(r.p, r.w.log, StatusRun(row), r'.p);
      }
      EffectReplays(r, StatusRun(row), r'.p);
    }
  }

  lemma {:induction false} StatusLoopReplays(b: Batch, ok: set<Id>, i: nat, env: Env, r: Run)
    requires i <= |b.order| && r.p.post.Post? && Replayed(r) && UniquePairs(r.p.post)
    ensures Replayed(StatusLoop(b, ok, i, env, r))
    decreases |b.order| - i
  {
    if i < |b.order| {
      StatusStepReplays(b, ok, b.order[i], env, r);
      hide Replayed, StatusStep, UniquePairs;
      StatusLoopReplays(b, ok, i + 1, env, StatusStep(b, ok, b.order[i], env, r));
    }
  }

  lemma CommitReplays(env: Env, r: Run)
    requires r.p.post.Post? && Replayed(r)
    ensures Replayed(CommitStep(env, r))
  {
    var r' := CommitStep(env, r);
    var e := CommitEffect(env);
    if r.w.life > 1 && !r.w.lost {
      OneMoreEffect(r.w.log, e);
      PostEffectKeepsRows(r.p, r.w.log, e, r'.p);
      assert r'.p.post.statusPairs == r.p.post.statusPairs;
      assert forall pair :: Standing(r'.p.post, pair) == Standing(r.p.post, pair);
    }
    EffectReplays(r, e, r'.p);
  }

  function CommitEffect(env: Env): Effect {
    match env.commit case Committed(c) => CommitDone(c) case Failed(code) => CommitFailed(code)
  }

  lemma NormalizeReplays(p: Progress, log: seq<Effect>, failedIds: set<Id>)
    requires Replays(p, log)
    ensures Replays(p.(post := Normalize(p.post).(failedIds := failedIds)), log)
  {
    var q := p.(post := Normalize(p.post).(failedIds := failedIds));
    assert forall id :: Entry(q, id) == Entry(p, id);
    assert forall pair :: Standing(q.post, pair) == Standing(p.post, pair);
  }

  lemma PostStageReplays(b: Batch, env: Env, r: Run)
    requires Replayed(r) && UniquePairs(r.p.post)
    ensures Replayed(PostStage(b, env, r))
  {
    var ok, failedIds := AllOk(b, r.p), Authorized(b, r.p) - AllOk(b, r.p);
    var r1 := Checkpoint(r, r.p.(post := Normalize(r.p.post).(failedIds := failedIds)));
    if r.w.life > 0 && !r.w.lost { NormalizeReplays(r.p, r.w.log, failedIds); }
    assert Replayed(r1) && UniquePairs(r1.p.post) && UniquePairs(RollupStep(ok, env, r1).p.post);
    hide Replayed, UniquePairs, RollupStep, StatusLoop, CommitStep;
    RollupReplays(ok, env, r1);
    StatusLoopReplays(b, ok, 0, env, RollupStep(ok, env, r1));
    CommitReplays(env, StatusLoop(b, ok, 0, env, RollupStep(ok, env, r1)));
  }

  lemma SkipReplays(r: Run)
    requires Replayed(r) && !r.p.post.Post?
    ensures Replayed(Checkpoint(r, r.p.(post := Skipped)))
  {
    var q := r.p.(post := Skipped);
    assert forall id :: Entry(q, id) == Entry(r.p, id);
    assert forall pair :: Standing(q.post, pair) == Standing(r.p.post, pair);
  }

  lemma ApplyRunReplays(b: Batch, env: Env, w: World)
    requires Shape(b, w.disk) && (!w.lost ==> Replays(w.disk, w.log))
    ensures Replayed(ApplyRun(b, env, w))
  {
    var r0 := Checkpoint(Run(w.disk, w, 0), w.disk);
    var r := ApplyRows(b, 0, PostCommitted(w.disk), env, r0);
    ApplyRowsReplay(b, 0, PostCommitted(w.disk), env, r0);
    ApplyRowsSteady(b, w, 0, env, r0);
    hide ApplyRows, Replayed, PostStage;
    if Authorized(b, r.p) == {} { SkipReplays(r); } else { PostStageReplays(b, env, r); }
  }

  lemma ExecReplays(b: Batch, w: World, c: Command)
    requires Shape(b, w.disk) && (!w.lost ==> Replays(w.disk, w.log))
    ensures var w' := Exec(b, w, c); !w'.lost ==> Replays(w'.disk, w'.log)
  {
    match c
    case ApplyCmd(life, env) => ApplyRunReplays(b, env, w.(life := life));
    case DryRunCmd(rows) =>
      if DryRunAllowed(w.disk.rows, rows) { assert forall id :: Entry(w.disk.(rows := rows), id).applyExit == Entry(w.disk, id).applyExit; }
  }

  lemma {:induction false} CampaignReplays(b: Batch, w: World, cmds: seq<Command>)
    requires Shape(b, w.disk) && (!w.lost ==> Replays(w.disk, w.log))
    ensures var w' := Campaign(b, w, cmds); !w'.lost ==> Replays(w'.disk, w'.log)
    decreases |cmds|
  {
    if cmds != [] {
      ExecSteady(b, w, cmds[0]);
      ExecReplays(b, w, cmds[0]);
      hide Replays, Shape;
      CampaignReplays(b, Exec(b, w, cmds[0]), cmds[1..]);
    }
  }

  /** Unless some effect lost its checkpoint, in every crash state of every campaign the
      progress file is the log read back: a meeting's recorded exit is what its last
      launch answered (so it is applied exactly when that answered 0), the rollup and
      commit records are the last outcomes of their kind, and the row standing for a
      pair is that of its last status run. */
  lemma FileIsTheLogReadBack(b: Batch, cmds: seq<Command>)
    requires !Campaign(b, Fresh, cmds).lost
    ensures var w := Campaign(b, Fresh, cmds);
      && Replays(w.disk, w.log)
      && forall id :: id in Applied(w.disk) <==> LastLaunch(w.log, id) == Some(0)
  {
    CampaignReplays(b, Fresh, cmds);
    var w := Campaign(b, Fresh, cmds);
    forall id ensures id in Applied(w.disk) <==> LastLaunch(w.log, id) == Some(0) { assert Entry(w.disk, id).applyExit == LastLaunch(w.log, id); }
  }

  /** Who is authorized, applied, attempted, and who counts for a pair. */
  lemma WhoCounts(b: Batch, p: Progress, pair: Pair, id: Id)
    ensures id in Authorized(b, p) <==>
      exists k :: 0 <= k < |b.rows| && b.rows[k].id == id && !b.rows[k].alreadyApplied && Entry(p, id).dryExit == Some(0)
    ensures id in AllOk(b, p) <==> id in Authorized(b, p) && Entry(p, id).applyExit == Some(0)
    ensures id in Attempted(b, p) <==> id in Authorized(b, p) && Entry(p, id).applyExit != None
    ensures id in PairIds(b, AllOk(b, p), pair) <==> id in AllOk(b, p) && id in b.pairOf && b.pairOf[id] == pair
    ensures EffectsOk(p) <==> p.post.Post? && p.post.rollupIds != None && forall row :: row in p.post.statusPairs ==> row.exit == 0
  {
    if id in Authorized(b, p) { var k :| 0 <= k < |b.rows| && !b.rows[k].alreadyApplied && Entry(p, b.rows[k].id).dryExit == Some(0) && b.rows[k].id == id; }
  }

  // ------------------------------------------------------------ the plan of a run

  /** The meetings to launch, in manifest order: authorized and not applied. */
  function Due(rows: seq<ManifestRow>, p: Progress): seq<Id> {
    if rows == [] then []
    else
      var e := Entry(p, rows[0].id);
      (if !rows[0].alreadyApplied && e.dryExit == Some(0) && e.applyExit != Some(0) then [rows[0].id] else []) + Due(rows[1..], p)
  }

  function LaunchAll(env: Env, ids: seq<Id>): seq<Effect> {
    if ids == [] then [] else [Launch(ids[0], env.launchRc(ids[0]))] + LaunchAll(env, ids[1..])
  }

  /** The applied meetings once the launches have answered. */
  function OkAfter(b: Batch, env: Env, p: Progress): set<Id> {
    set id | id in Authorized(b, p) && (Entry(p, id).applyExit == Some(0) || env.launchRc(id) == 0)
  }

  /** A standing row says the pair is done for exactly these meetings. */
  ghost predicate Verified(post: PostBatch, pair: Pair, ids: set<Id>) {
    post.Post? && exists row :: row in post.statusPairs && row.pair == pair && row.exit == 0 && row.okIds == ids
  }

  /** One status run for every pair with applied meetings that is not verified for them. */
  ghost function StatusDue(b: Batch, ok: set<Id>, env: Env, post: PostBatch, pairs: seq<Pair>): seq<Effect> {
    if pairs == [] then []
    else
      var ids := PairIds(b, ok, pairs[0]);
      (if ids != {} && !Verified(post, pairs[0], ids) then [StatusRun(StatusRow(pairs[0], env.status(pairs[0]).0, env.status(pairs[0]).1, ids))] else [])
      + StatusDue(b, ok, env, post, pairs[1..])
  }

  ghost function StagePlan(b: Batch, ok: set<Id>, env: Env, post: PostBatch): seq<Effect> {
    (if post.Post? && post.rollupIds == Some(ok) then [] else [Rollup(ok, env.rollupRc)])
    + StatusDue(b, ok, env, post, b.order) + [CommitEffect(env)]
  }

  /** Everything a run does that starts with this progress. */
  ghost function Plan(b: Batch, env: Env, p: Progress): seq<Effect> {
    if Authorized(b, p) == {} then []
    else if PostCommitted(p) then
      if Attempted(b, p) == Authorized(b, p) && !EffectsOk(p) then StagePlan(b, AllOk(b, p), env, p.post) else []
    else LaunchAll(env, Due(b.rows, p)) + StagePlan(b, OkAfter(b, env, p), env, p.post)
  }

  /** The run has done `done` since `base`, or died while doing it. */
  ghost predicate Follows(base: seq<Effect>, done: seq<Effect>, r: Run) {
    && base <= r.w.log <= base + done
    && (r.w.life > 0 ==> r.w.log == base + done)
  }

  lemma EffectFollows(base: seq<Effect>, done: seq<Effect>, r: Run, e: Effect, p: Progress)
    requires Follows(base, done, r)
    ensures Follows(base, done + [e], EffectThenCheckpoint(r, e, p))
  {
    assert base + (done + [e]) == (base + done) + [e];
  }

  lemma JoinThree(a: seq<Effect>, m: seq<Effect>, c: seq<Effect>)
    ensures (a + m) + c == a + (m + c)
  {}

  /** `q` is `p` with the answers of these launches recorded. */
  ghost predicate Settled(env: Env, p: Progress, ids: seq<Id>, q: Progress) {
    forall id :: Entry(q, id) == if id in ids then Entry(p, id).(applyExit := Some(env.launchRc(id))) else Entry(p, id)
  }

  lemma SettledTwice(env: Env, p: Progress, a: seq<Id>, q: Progress, c: seq<Id>, r: Progress)
    requires Settled(env, p, a, q) && Settled(env, q, c, r)
    ensures Settled(env, p, a + c, r)
  {
    hide Entry;
  }

  /** What the launches leave behind, in the log and in memory. */
  lemma {:induction false} RowsFollow(b: Batch, i: nat, env: Env, base: seq<Effect>, done: seq<Effect>, r: Run)
    requires Canonical(b) && i <= |b.rows| && Follows(base, done, r)
    ensures var r' := ApplyRows(b, i, false, env, r); var due := Due(b.rows[i..], r.p);
      && Follows(base, done + LaunchAll(env, due), r') && r'.p.post == r.p.post && Settled(env, r.p, due, r'.p)
    decreases |b.rows| - i
  {
    if i == |b.rows| {
      assert b.rows[i..] == [] && done + [] == done;
    } else {
      var m, rest := b.rows[i], b.rows[i + 1..];
      assert b.rows[i..] == [m] + rest;
      var r1 := ApplyOne(m, false, env, r);
      var first := if RowIsDue(m, r.p) then [m.id] else [];
      var due := Due(rest, r.p);
      RowFollows(m, env, base, done, r);
      forall k | 0 <= k < |rest| ensures rest[k].id != m.id { assert rest[k] == b.rows[i + 1 + k]; }
      DueElsewhere(rest, r.p, r1.p, m.id);
      DueFirst(m, rest, r.p);
      hide Follows, ApplyOne, Due, Canonical, Settled, LaunchAll, RowIsDue;
      RowsFollow(b, i + 1, env, base, done + LaunchAll(env, first), r1);
      SettledTwice(env, r.p, first, r1.p, due, ApplyRows(b, i + 1, false, env, r1).p);
      LaunchJoin(env, first, due);
      JoinThree(done, LaunchAll(env, first), LaunchAll(env, due));
    }
  }

  ghost predicate RowIsDue(m: ManifestRow, p: Progress) {
    !m.alreadyApplied && Entry(p, m.id).dryExit == Some(0) && Entry(p, m.id).applyExit != Some(0)
  }

  lemma DueFirst(m: ManifestRow, rest: seq<ManifestRow>, p: Progress)
    ensures Due([m] + rest, p) == (if RowIsDue(m, p) then [m.id] else []) + Due(rest, p)
  {
    assert ([m] + rest)[1..] == rest;
  }

  lemma {:induction false} LaunchJoin(env: Env, a: seq<Id>, c: seq<Id>)
    ensures LaunchAll(env, a + c) == LaunchAll(env, a) + LaunchAll(env, c)
    decreases |a|
  {
    if a == [] {
      assert a + c == c;
    } else {
      assert (a + c)[1..] == a[1..] + c;
      LaunchJoin(env, a[1..], c);
    }
  }

  lemma RowFollows(m: ManifestRow, env: Env, base: seq<Effect>, done: seq<Effect>, r: Run)
    requires Follows(base, done, r)
    ensures var r' := ApplyOne(m, false, env, r); var first := if RowIsDue(m, r.p) then [m.id] else [];
      && Follows(base, done + LaunchAll(env, first), r') && r'.p.post == r.p.post && Settled(env, r.p, first, r'.p)
      && forall x :: x != m.id ==> Entry(r'.p, x) == Entry(r.p, x)
  {
    var e := Entry(r.p, m.id);
    var r0 := r.(p := SetRow(r.p, m.id, e));
    assert done + [] == done;
    assert LaunchAll(env, [m.id]) == [Launch(m.id, env.launchRc(m.id))] + LaunchAll(env, [m.id][1..]);
    EffectFollows(base, done, r0, Launch(m.id, env.launchRc(m.id)), SetRow(r0.p, m.id, e.(applyExit := Some(env.launchRc(m.id)))));
  }

  lemma {:induction false} DueIsOf(rows: seq<ManifestRow>, p: Progress)
    ensures forall id :: id in Due(rows, p) <==> exists k :: 0 <= k < |rows| && rows[k].id == id && RowIsDue(rows[k], p)
    decreases |rows|
  {
    if rows != [] {
      DueIsOf(rows[1..], p);
      forall id ensures id in Due(rows, p) <==> exists k :: 0 <= k < |rows| && rows[k].id == id && RowIsDue(rows[k], p) {
        if id in Due(rows[1..], p) { var k :| 0 <= k < |rows[1..]| && rows[1..][k].id == id && RowIsDue(rows[1..][k], p); assert rows[k + 1].id == id; }
        if k :| 0 <= k < |rows| && rows[k].id == id && RowIsDue(rows[k], p) { if k > 0 { assert rows[1..][k - 1] == rows[k]; } }
      }
    }
  }

  lemma {:induction false} DueElsewhere(rows: seq<ManifestRow>, p: Progress, q: Progress, id: Id)
    requires (forall x :: x != id ==> Entry(q, x) == Entry(p, x)) && forall k :: 0 <= k < |rows| ==> rows[k].id != id
    ensures Due(rows, q) == Due(rows, p)
    decreases |rows|
  {
    if rows != [] {
      assert forall k :: 0 <= k < |rows[1..]| ==> rows[1..][k] == rows[k + 1];
      DueElsewhere(rows[1..], p, q, id);
    }
  }

  lemma RollupFollows(ok: set<Id>, env: Env, base: seq<Effect>, done: seq<Effect>, r: Run)
    requires r.p.post.Post? && Follows(base, done, r)
    ensures var r' := RollupStep(ok, env, r);
      && Follows(base, done + (if r.p.post.rollupIds == Some(ok) then [] else [Rollup(ok, env.rollupRc)]), r')
      && r'.p.post.statusPairs == r.p.post.statusPairs && r'.p.post.failedIds == r.p.post.failedIds
  {
    assert done + [] == done;
    EffectFollows(base, done, r, Rollup(ok, env.rollupRc), RollupStep(ok, env, r).p);
  }

  /** A status run settles its own pair and no other. */
  lemma OtherPairsStay(post: PostBatch, row: StatusRow, pair: Pair, ids: set<Id>)
    requires post.Post? && UniquePairs(post) && pair != row.pair
    ensures Verified(AfterStatus(post, row), pair, ids) <==> Verified(post, pair, ids)
  {
    AfterStatusUnique(post, row);
    forall x ensures x in AfterStatus(post, row).statusPairs <==> x == row || (x in post.statusPairs && x.pair != row.pair) {
      WithoutMembers(post.statusPairs, row.pair, x);
    }
  }

  lemma {:induction false} StatusDueElsewhere(b: Batch, ok: set<Id>, env: Env, post: PostBatch, row: StatusRow, pairs: seq<Pair>)
    requires post.Post? && UniquePairs(post) && row.pair !in pairs
    ensures StatusDue(b, ok, env, AfterStatus(post, row), pairs) == StatusDue(b, ok, env, post, pairs)
    decreases |pairs|
  {
    if pairs != [] {
      OtherPairsStay(post, row, pairs[0], PairIds(b, ok, pairs[0]));
      assert pairs == [pairs[0]] + pairs[1..];
      hide AfterStatus, Verified;
      StatusDueElsewhere(b, ok, env, post, row, pairs[1..]);
    }
  }

  lemma StatusStepFollows(b: Batch, ok: set<Id>, pair: Pair, env: Env, base: seq<Effect>, done: seq<Effect>, r: Run)
    requires r.p.post.Post? && UniquePairs(r.p.post) && Follows(base, done, r)
    ensures var r' := StatusStep(b, ok, pair, env, r); var ids := PairIds(b, ok, pair);
      var row := StatusRow(pair, env.status(pair).0, env.status(pair).1, ids);
      if ids != {} && !Verified(r.p.post, pair, ids) then
        Follows(base, done + [StatusRun(row)], r') && r'.p.post == AfterStatus(r.p.post, row)
      else r' == r
  {
    var ids := PairIds(b, ok, pair);
    var row := StatusRow(pair, env.status(pair).0, env.status(pair).1, ids);
    StandingIff(r.p.post, pair);
    EffectFollows(base, done, r, StatusRun(row), r.p.(post := AfterStatus(r.p.post, row)));
  }

  lemma StatusDueFirst(b: Batch, ok: set<Id>, env: Env, post: PostBatch, i: nat)
    requires i < |b.order|
    ensures var pair := b.order[i]; var ids := PairIds(b, ok, pair);
      StatusDue(b, ok, env, post, b.order[i..]) ==
        (if ids != {} && !Verified(post, pair, ids) then [StatusRun(StatusRow(pair, env.status(pair).0, env.status(pair).1, ids))] else [])
          + StatusDue(b, ok, env, post, b.order[i + 1..])
  {
    assert b.order[i..][0] == b.order[i] && b.order[i..][1..] == b.order[i + 1..];
    hide Verified, PairIds;
  }

  lemma {:induction false} StatusFollows(b: Batch, ok: set<Id>, i: nat, env: Env, base: seq<Effect>, done: seq<Effect>, r: Run)
    requires Canonical(b) && i <= |b.order| && r.p.post.Post? && UniquePairs(r.p.post) && Follows(base, done, r)
    ensures var r' := StatusLoop(b, ok, i, env, r);
      Follows(base, done + StatusDue(b, ok, env, r.p.post, b.order[i..]), r') && r'.p.post.failedIds == r.p.post.failedIds
    decreases |b.order| - i
  {
    if i == |b.order| {
      assert b.order[i..] == [] && done + [] == done;
    } else {
      var pair, rest := b.order[i], b.order[i + 1..];
      StatusDueFirst(b, ok, env, r.p.post, i);
      var ids := PairIds(b, ok, pair);
      var row := StatusRow(pair, env.status(pair).0, env.status(pair).1, ids);
      var due := StatusDue(b, ok, env, r.p.post, rest);
      StatusStepFollows(b, ok, pair, env, base, done, r);
      var r1 := StatusStep(b, ok, pair, env, r);
      AfterStatusUnique(r.p.post, row);
      assert pair !in rest;
      StatusDueElsewhere(b, ok, env, r.p.post, row, rest);
      assert AfterStatus(r.p.post, row).failedIds == r.p.post.failedIds;
      hide Follows, StatusStep, AfterStatus, Verified, Canonical, UniquePairs, PairIds, StatusDue;
      if ids != {} && !Verified(r.p.post, pair, ids) {
        StatusFollows(b, ok, i + 1, env, base, done + [StatusRun(row)], r1);
        JoinThree(done, [StatusRun(row)], due);
      } else {
        StatusFollows(b, ok, i + 1, env, base, done, r1);
      }
    }
  }

  /** The meetings that failed are on record, and a run that is alive has saved it. */
  ghost predicate Staged(b: Batch, r: Run) {
    r.p.post.Post? && r.p.post.failedIds == Authorized(b, r.p) - AllOk(b, r.p) && (r.w.life > 0 ==> r.w.disk == r.p)
  }

  lemma StageFollows(b: Batch, env: Env, base: seq<Effect>, done: seq<Effect>, r: Run)
    requires Canonical(b) && UniquePairs(r.p.post) && Follows(base, done, r)
    ensures var r' := PostStage(b, env, r);
      && Follows(base, done + StagePlan(b, AllOk(b, r.p), env, r.p.post), r')
      && Staged(b, r') && Authorized(b, r'.p) == Authorized(b, r.p) && AllOk(b, r'.p) == AllOk(b, r.p)
  {
    var ok := AllOk(b, r.p);
    var r1 := Checkpoint(r, r.p.(post := Normalize(r.p.post).(failedIds := Authorized(b, r.p) - ok)));
    var roll := if r1.p.post.rollupIds == Some(ok) then [] else [Rollup(ok, env.rollupRc)];
    var status := StatusDue(b, ok, env, r1.p.post, b.order);
    StatusDueOfRows(b, ok, env, r1.p.post, r.p.post, b.order);
    RollupFollows(ok, env, base, done, r1);
    var r2 := RollupStep(ok, env, r1);
    StatusDueOfRows(b, ok, env, r2.p.post, r1.p.post, b.order);
    assert b.order[0..] == b.order && UniquePairs(r2.p.post);
    hide Canonical, UniquePairs, Follows, StatusLoop, RollupStep, StatusDue;
    StatusFollows(b, ok, 0, env, base, done + roll, r2);
    var r3 := StatusLoop(b, ok, 0, env, r2);
    EffectFollows(base, done + roll + status, r3, CommitEffect(env), CommitStep(env, r3).p);
    assert done + roll + status + [CommitEffect(env)] == done + (roll + status + [CommitEffect(env)]);
    StageLeavesRows(b, env, r);
    SameRows(b, PostStage(b, env, r).p, r.p);
  }

  lemma StageLeavesRows(b: Batch, env: Env, r: Run)
    ensures PostStage(b, env, r).p.rows == r.p.rows
  {
    var ok := AllOk(b, r.p);
    var r1 := Checkpoint(r, r.p.(post := Normalize(r.p.post).(failedIds := Authorized(b, r.p) - ok)));
    RollupLeavesRows(ok, env, r1);
    StatusLoopLeavesRows(b, ok, 0, env, RollupStep(ok, env, r1));
    hide StatusLoop, RollupStep;
  }

  /** Which pairs are due depends on the standing rows alone. */
  lemma {:induction false} StatusDueOfRows(b: Batch, ok: set<Id>, env: Env, post: PostBatch, q: PostBatch, pairs: seq<Pair>)
    requires post.Post? && (if q.Post? then q.statusPairs == post.statusPairs else post.statusPairs == [])
    ensures StatusDue(b, ok, env, post, pairs) == StatusDue(b, ok, env, q, pairs)
    decreases |pairs|
  {
    if pairs != [] {
      assert forall ids :: Verified(post, pairs[0], ids) <==> Verified(q, pairs[0], ids);
      StatusDueOfRows(b, ok, env, post, q, pairs[1..]);
    }
  }

  /** After the launches of an uncommitted batch everything authorized is attempted. */
  lemma LaunchesSettle(b: Batch, env: Env, p: Progress, q: Progress)
    requires Settled(env, p, Due(b.rows, p), q)
    ensures Authorized(b, q) == Authorized(b, p) && Attempted(b, q) == Authorized(b, q) && AllOk(b, q) == OkAfter(b, env, p)
  {
    DueIsOf(b.rows, p);
    forall id ensures id in Authorized(b, p) <==> id in Authorized(b, q) {
      if id in Authorized(b, p) { var i :| 0 <= i < |b.rows| && !b.rows[i].alreadyApplied && Entry(p, b.rows[i].id).dryExit == Some(0) && b.rows[i].id == id; }
      if id in Authorized(b, q) { var i :| 0 <= i < |b.rows| && !b.rows[i].alreadyApplied && Entry(q, b.rows[i].id).dryExit == Some(0) && b.rows[i].id == id; }
    }
    forall id | id in Authorized(b, p) ensures id in Due(b.rows, p) <==> Entry(p, id).applyExit != Some(0) {
      var i :| 0 <= i < |b.rows| && !b.rows[i].alreadyApplied && Entry(p, b.rows[i].id).dryExit == Some(0) && b.rows[i].id == id;
      assert Entry(p, id).applyExit != Some(0) ==> RowIsDue(b.rows[i], p);
    }
  }

  lemma RunFollows(b: Batch, env: Env, w: World)
    requires Canonical(b) && Shape(b, w.disk)
    ensures var r := ApplyRun(b, env, w);
      && Follows(w.log, Plan(b, env, w.disk), r)
      && (Plan(b, env, w.disk) != [] ==> Staged(b, r))
  {
    if PostCommitted(w.disk) {
      var r := CommittedPrefix(b, env, w);
      PlanOfCommitted(b, env, w, r);
    } else {
      var r0 := Checkpoint(Run(w.disk, w, 0), w.disk);
      assert b.rows[0..] == b.rows;
      RowsFollow(b, 0, env, w.log, [], r0);
      var r1 := ApplyRows(b, 0, false, env, r0);
      LaunchesSettle(b, env, w.disk, r1.p);
      PlanOfOpen(b, env, w, r1);
    }
  }

  lemma PlanOfCommitted(b: Batch, env: Env, w: World, r: Run)
    requires Canonical(b) && Shape(b, w.disk) && PostCommitted(w.disk) && r.p.post == w.disk.post && r.w.log == w.log
    requires ApplyRun(b, env, w) == PostBatchStep(b, env, r)
    requires Authorized(b, r.p) == Authorized(b, w.disk) && AllOk(b, r.p) == AllOk(b, w.disk) && Attempted(b, r.p) == Attempted(b, w.disk)
    ensures var r' := ApplyRun(b, env, w);
      && Follows(w.log, Plan(b, env, w.disk), r')
      && (Plan(b, env, w.disk) != [] ==> Staged(b, r'))
  {
    hide ApplyRun, Authorized, AllOk, Attempted, PostStage;
    assert w.log + [] == w.log && Follows(w.log, [], r);
    StageFollows(b, env, w.log, [], r);
    assert [] + StagePlan(b, AllOk(b, r.p), env, r.p.post) == StagePlan(b, AllOk(b, r.p), env, r.p.post);
  }

  lemma PlanOfOpen(b: Batch, env: Env, w: World, r: Run)
    requires Canonical(b) && Shape(b, w.disk) && !PostCommitted(w.disk) && r.p.post == w.disk.post
    requires ApplyRun(b, env, w) == PostBatchStep(b, env, r) && Follows(w.log, [] + LaunchAll(env, Due(b.rows, w.disk)), r)
    requires Authorized(b, r.p) == Authorized(b, w.disk) && Attempted(b, r.p) == Authorized(b, r.p) && AllOk(b, r.p) == OkAfter(b, env, w.disk)
    ensures var r' := ApplyRun(b, env, w);
      && Follows(w.log, Plan(b, env, w.disk), r')
      && (Plan(b, env, w.disk) != [] ==> Staged(b, r'))
  {
    var launches := LaunchAll(env, Due(b.rows, w.disk));
    assert [] + launches == launches;
    NothingDue(b, w.disk);
    hide ApplyRun, Authorized, AllOk, Attempted, PostStage, Due, OkAfter, LaunchAll;
    StageFollows(b, env, w.log, launches, r);
  }

  lemma NothingDue(b: Batch, p: Progress)
    ensures Due(b.rows, p) != [] ==> Authorized(b, p) != {}
  {
    DueIsOf(b.rows, p);
    if Due(b.rows, p) != [] {
      var id := Due(b.rows, p)[0];
      assert id in Due(b.rows, p);
      var k :| 0 <= k < |b.rows| && b.rows[k].id == id && RowIsDue(b.rows[k], p);
      assert id in Authorized(b, p);
    }
  }

  /** A run from any state a campaign reaches, killed anywhere: its effects are the plan
      made from the progress it starts with, cut short only by its death.  When it had
      anything to do and lives, the file names exactly the authorized meetings that are
      not applied as failed. */
  lemma RunFollowsPlan(b: Batch, env: Env, before: seq<Command>, life: nat)
    requires Canonical(b)
    ensures var w := Campaign(b, Fresh, before).(life := life); var r := ApplyRun(b, env, w);
      && w.log <= r.w.log <= w.log + Plan(b, env, w.disk)
      && (r.w.life > 0 ==> r.w.log == w.log + Plan(b, env, w.disk))
      && (r.w.life > 0 && Plan(b, env, w.disk) != [] ==>
            r.w.disk.post.Post? && r.w.disk.post.failedIds == Authorized(b, r.w.disk) - AllOk(b, r.w.disk))
  {
    CampaignSteady(b, Fresh, before);
    RunFollows(b, env, Campaign(b, Fresh, before).(life := life));
  }

  lemma {:induction false} NoneLaunched(b: Batch, i: nat, closed: bool, env: Env, r: Run)
    requires i <= |b.rows| && Authorized(b, r.p) == {}
    ensures var r' := ApplyRows(b, i, closed, env, r); r'.w == r.w && r'.p.post == r.p.post && r'.failed == r.failed && forall id :: Entry(r'.p, id) == Entry(r.p, id)
    decreases |b.rows| - i
  {
    if i < |b.rows| {
      var r1 := ApplyOne(b.rows[i], closed, env, r);
      var m := b.rows[i];
      assert !m.alreadyApplied && Entry(r.p, m.id).dryExit == Some(0) ==> m.id in Authorized(b, r.p);
      assert r1.w == r.w && r1.p.post == r.p.post && forall id :: Entry(r1.p, id) == Entry(r.p, id);
      assert Authorized(b, r1.p) == {};
      hide Authorized;
      NoneLaunched(b, i + 1, closed, env, r1);
    }
  }

  /** With nothing authorized a run has no effect at all; it only notes, once, that
      post-batch was skipped. */
  lemma NothingAuthorized(b: Batch, env: Env, w: World)
    requires Authorized(b, w.disk) == {}
    ensures var r := ApplyRun(b, env, w);
      && r.w.log == w.log && r.failed == 0
      && r.w.disk.post == (if w.life >= 2 then Skipped else w.disk.post)
      && forall id :: Entry(r.w.disk, id) == Entry(w.disk, id)
  {
    var r := Checkpoint(Run(w.disk, w, 0), w.disk);
    NoneLaunched(b, 0, PostCommitted(w.disk), env, r);
  }
}
