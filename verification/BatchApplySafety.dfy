/** What every apply run keeps, crash or no crash, and what holds of whole
    campaigns of apply and dry-run invocations over one batch. */
module BatchApplySafety {
  import opened Common
  import opened BatchApply

  // ------------------------------------------------------------ the effect log

  predicate IsRollup(e: Effect) { e.Rollup? && e.rc == 0 }

  predicate IsStatus(e: Effect, pair: Pair) { e.StatusRun? && e.row.pair == pair && e.row.exit == 0 }

  /** The status rows the log produced, oldest first. */
  function StatusLog(log: seq<Effect>): seq<StatusRow> {
    if log == [] then []
    else StatusLog(log[..|log| - 1]) + (if log[|log| - 1].StatusRun? then [log[|log| - 1].row] else [])
  }

  /** Successful rollups cover strictly growing sets of meetings. */
  ghost predicate RollupsGrow(log: seq<Effect>) {
    forall i, j :: 0 <= i < j < |log| && IsRollup(log[i]) && IsRollup(log[j]) ==> log[i].ids < log[j].ids
  }

  /** Successful status runs of one pair cover strictly growing sets of meetings. */
  ghost predicate StatusGrow(log: seq<Effect>) {
    forall i, j, pair {:trigger IsStatus(log[i], pair), IsStatus(log[j], pair)} ::
      0 <= i < j < |log| && IsStatus(log[i], pair) && IsStatus(log[j], pair) ==> log[i].row.okIds < log[j].row.okIds
  }

  /** No meeting is launched after a commit. */
  ghost predicate NoLaunchAfterCommit(log: seq<Effect>) {
    forall i, j :: 0 <= i < j < |log| && log[i].CommitDone? ==> !log[j].Launch?
  }

  // ------------------------------------------------------------ progress against log

  predicate UniquePairs(post: PostBatch) {
    post.Post? ==>
      forall i, j :: 0 <= i < j < |post.statusPairs| ==> post.statusPairs[i].pair != post.statusPairs[j].pair
  }

  ghost predicate RollupRecorded(ok: set<Id>, post: PostBatch, log: seq<Effect>) {
    && (forall e :: e in log && IsRollup(e) ==> post.Post? && post.rollupIds.Some? && e.ids <= post.rollupIds.value)
    && (post.Post? && post.rollupIds.Some? ==> post.rollupIds.value <= ok)
  }

  /** `row` records a success on at least `ids`, or a later attempt on strictly more. */
  predicate Covers(row: StatusRow, pair: Pair, ids: set<Id>) {
    row.pair == pair && if row.exit == 0 then ids <= row.okIds else ids < row.okIds
  }

  /** Every success in the log is covered by the row now standing for its pair. */
  ghost predicate StatusCovered(post: PostBatch, log: seq<Effect>) {
    forall e, pair {:trigger IsStatus(e, pair)} :: e in log && IsStatus(e, pair) ==>
      post.Post? && exists row :: row in post.statusPairs && Covers(row, pair, e.row.okIds)
  }

  ghost predicate StatusWithin(b: Batch, ok: set<Id>, post: PostBatch) {
    post.Post? ==> forall row :: row in post.statusPairs ==> {} < row.okIds <= PairIds(b, ok, row.pair)
  }

  /** No status record is ever lost: each one stands or has moved to the history. */
  ghost predicate StatusConserved(post: PostBatch, log: seq<Effect>) {
    if post.Post? then multiset(post.statusPairs) + multiset(post.history) == multiset(StatusLog(log))
    else StatusLog(log) == []
  }

  /** The last commit that succeeded. */
  function LastCommit(log: seq<Effect>): Option<Commit> {
    if log == [] then None
    else if log[|log| - 1].CommitDone? then Some(log[|log| - 1].commit)
    else LastCommit(log[..|log| - 1])
  }

  function RecordedCommit(post: PostBatch): Option<Commit> {
    if post.Post? then post.commit else None
  }

  /** The recorded commit is the last one that succeeded; a failure leaves it alone. */
  ghost predicate CommitRecorded(p: Progress, log: seq<Effect>) {
    RecordedCommit(p.post) == LastCommit(log)
  }

  ghost predicate LogOrdered(log: seq<Effect>) {
    RollupsGrow(log) && StatusGrow(log) && NoLaunchAfterCommit(log)
  }

  ghost predicate PostSound(b: Batch, ok: set<Id>, post: PostBatch, log: seq<Effect>) {
    && UniquePairs(post)
    && RollupRecorded(ok, post, log)
    && StatusCovered(post, log)
    && StatusWithin(b, ok, post)
    && StatusConserved(post, log)
    && LogOrdered(log)
  }

  /** The progress file explains the effect log. */
  ghost predicate Sound(b: Batch, p: Progress, log: seq<Effect>) {
    && (p.post.Post? ==> Authorized(b, p) != {})
    && PostSound(b, AllOk(b, p), p.post, log)
    && CommitRecorded(p, log)
  }

  /** Unless an effect lost its checkpoint, the file explains the log; while the
      process lives, so does its memory. */
  ghost predicate Safe(b: Batch, r: Run) {
    && (!r.w.lost ==> Sound(b, r.w.disk, r.w.log))
    && (!r.w.lost && r.w.life > 0 ==> Sound(b, r.p, r.w.log))
  }

  // ------------------------------------------------------------ single steps

  lemma StatusLogAppend(log: seq<Effect>, e: Effect)
    ensures StatusLog(log + [e]) == StatusLog(log) + (if e.StatusRun? then [e.row] else [])
  {
    assert (log + [e])[..|log|] == log;
  }

  lemma LastCommitAppend(log: seq<Effect>, e: Effect)
    ensures LastCommit(log + [e]) == if e.CommitDone? then Some(e.commit) else LastCommit(log)
  {
    assert (log + [e])[..|log|] == log;
  }

  lemma {:induction false} NoCommitInLog(log: seq<Effect>, k: nat)
    requires LastCommit(log).None? && k < |log|
    ensures !log[k].CommitDone?
    decreases |log|
  {
    if k < |log| - 1 { NoCommitInLog(log[..|log| - 1], k); }
  }

  lemma EffectKeepsSafe(b: Batch, r: Run, e: Effect, p: Progress)
    requires Safe(b, r)
    requires r.w.life > 1 && !r.w.lost ==> Sound(b, p, r.w.log + [e])
    ensures Safe(b, EffectThenCheckpoint(r, e, p))
  {}

  lemma EntriesDecideOk(b: Batch, p: Progress, q: Progress)
    requires forall id :: Entry(p, id).dryExit == Some(0) ==> Entry(q, id).dryExit == Some(0)
    requires forall id :: Entry(p, id).applyExit == Some(0) ==> Entry(q, id).applyExit == Some(0)
    ensures Authorized(b, p) <= Authorized(b, q) && AllOk(b, p) <= AllOk(b, q)
  {
    forall id | id in Authorized(b, p) ensures id in Authorized(b, q) {
      var i :| 0 <= i < |b.rows| && !b.rows[i].alreadyApplied && Entry(p, b.rows[i].id).dryExit == Some(0) && b.rows[i].id == id;
    }
  }

  /** Growing rows and an unchanged post-batch record keep soundness. */
  lemma RowsMayGrow(b: Batch, p: Progress, q: Progress, log: seq<Effect>)
    requires Sound(b, p, log) && q.post == p.post
    requires forall id :: Entry(p, id).dryExit == Some(0) ==> Entry(q, id).dryExit == Some(0)
    requires forall id :: Entry(p, id).applyExit == Some(0) ==> Entry(q, id).applyExit == Some(0)
    ensures Sound(b, q, log)
  {
    EntriesDecideOk(b, p, q);
  }

  lemma InertOrder(log: seq<Effect>, e: Effect)
    requires LogOrdered(log) && !e.Rollup? && !e.StatusRun? && (e.Launch? ==> forall k :: 0 <= k < |log| ==> !log[k].CommitDone?)
    ensures LogOrdered(log + [e])
  {}

  lemma InertRecords(b: Batch, ok: set<Id>, post: PostBatch, log: seq<Effect>, e: Effect)
    requires RollupRecorded(ok, post, log) && StatusCovered(post, log) && StatusConserved(post, log) && !e.Rollup? && !e.StatusRun?
    ensures RollupRecorded(ok, post, log + [e]) && StatusCovered(post, log + [e]) && StatusConserved(post, log + [e])
  {
    StatusLogAppend(log, e);
    assert forall x :: x in log + [e] && x != e ==> x in log;
  }

  /** An effect that is neither a rollup nor a status run leaves their records sound. */
  lemma InertKeeps(b: Batch, ok: set<Id>, post: PostBatch, log: seq<Effect>, e: Effect)
    requires PostSound(b, ok, post, log) && !e.Rollup? && !e.StatusRun?
    requires e.Launch? ==> forall k :: 0 <= k < |log| ==> !log[k].CommitDone?
    ensures PostSound(b, ok, post, log + [e])
  {
    hide LogOrdered, RollupRecorded, StatusCovered, StatusConserved, UniquePairs, StatusWithin;
    InertOrder(log, e);
    InertRecords(b, ok, post, log, e);
  }

  lemma LaunchKeepsSound(b: Batch, p: Progress, log: seq<Effect>, id: Id, rc: int)
    requires Sound(b, p, log) && !PostCommitted(p)
    ensures Sound(b, p, log + [Launch(id, rc)])
  {
    hide PostSound, AllOk, Authorized, LastCommit;
    assert LastCommit(log).None?;
    forall k | 0 <= k < |log| ensures !log[k].CommitDone? { NoCommitInLog(log, k); }
    LastCommitAppend(log, Launch(id, rc));
    InertKeeps(b, AllOk(b, p), p.post, log, Launch(id, rc));
  }

  lemma ApplyOneKeepsSafe(b: Batch, m: ManifestRow, closed: bool, env: Env, r: Run)
    requires Safe(b, r) && (closed == PostCommitted(r.p))
    ensures var r' := ApplyOne(m, closed, env, r); Safe(b, r') && r'.p.post == r.p.post
  {
    if !m.alreadyApplied {
      var e := Entry(r.p, m.id);
      var p0 := SetRow(r.p, m.id, e);
      if r.w.life > 0 && !r.w.lost { RowsMayGrow(b, r.p, p0, r.w.log); }
      if !(e.dryExit != Some(0) || e.applyExit == Some(0) || closed) {
        var rc := env.launchRc(m.id);
        var p1 := SetRow(p0, m.id, e.(applyExit := Some(rc)));
        if r.w.life > 0 && !r.w.lost {
          RowsMayGrow(b, r.p, p1, r.w.log);
          LaunchKeepsSound(b, p1, r.w.log, m.id, rc);
        }
        EffectKeepsSafe(b, r.(p := p0), Launch(m.id, rc), p1);
      }
    }
  }

  lemma {:induction false} ApplyRowsKeepsSafe(b: Batch, i: nat, closed: bool, env: Env, r: Run)
    requires i <= |b.rows| && Safe(b, r) && closed == PostCommitted(r.p)
    ensures var r' := ApplyRows(b, i, closed, env, r); Safe(b, r') && r'.p.post == r.p.post
    decreases |b.rows| - i
  {
    if i < |b.rows| {
      ApplyOneKeepsSafe(b, b.rows[i], closed, env, r);
      ApplyRowsKeepsSafe(b, i + 1, closed, env, ApplyOne(b.rows[i], closed, env, r));
    }
  }

  lemma SameRows(b: Batch, p: Progress, q: Progress)
    requires p.rows == q.rows
    ensures Authorized(b, p) == Authorized(b, q) && AllOk(b, p) == AllOk(b, q)
  {
    EntriesDecideOk(b, p, q);
    EntriesDecideOk(b, q, p);
  }

  lemma RollupExtends(b: Batch, ok: set<Id>, post: PostBatch, log: seq<Effect>, rc: int, post': PostBatch)
    requires PostSound(b, ok, post, log) && post.Post? && post.rollupIds != Some(ok)
    requires post' == if rc == 0 then post.(rollupIds := Some(ok), rollupLastExit := None) else post.(rollupLastExit := Some(rc))
    ensures PostSound(b, ok, post', log + [Rollup(ok, rc)])
  {
    var e := Rollup(ok, rc);
    StatusLogAppend(log, e);
    forall k | 0 <= k < |log| && IsRollup(log[k]) ensures log[k].ids < ok {
      assert log[k] in log;
      var recorded := post.rollupIds.value;
      assert recorded != ok && recorded <= ok;
    }
    assert forall x :: x in log + [e] && x != e ==> x in log;
  }

  lemma RollupKeepsSafe(b: Batch, env: Env, r: Run)
    requires Safe(b, r) && r.p.post.Post?
    ensures Safe(b, RollupStep(AllOk(b, r.p), env, r))
  {
    var ok := AllOk(b, r.p);
    var e := Rollup(ok, env.rollupRc);
    if r.p.post.rollupIds != Some(ok) {
      var r' := RollupStep(ok, env, r);
      SameRows(b, r.p, r'.p);
      if r.w.life > 1 && !r.w.lost {
        RollupExtends(b, ok, r.p.post, r.w.log, env.rollupRc, r'.p.post);
        LastCommitAppend(r.w.log, e);
      }
      EffectKeepsSafe(b, r, e, r'.p);
    }
  }

  // ------------------------------------------------------------ one status run

  lemma WithoutMembers(rows: seq<StatusRow>, pair: Pair, row: StatusRow)
    ensures row in Without(rows, pair) <==> row in rows && row.pair != pair
  {
    if rows != [] {
      assert rows == [rows[0]] + rows[1..];
      WithoutMembers(rows[1..], pair, row);
    }
  }

  lemma WithoutAbsent(rows: seq<StatusRow>, pair: Pair)
    requires forall k :: 0 <= k < |rows| ==> rows[k].pair != pair
    ensures Without(rows, pair) == rows
  {
    if rows != [] { WithoutAbsent(rows[1..], pair); }
  }

  ghost predicate Distinct(rows: seq<StatusRow>) {
    forall i, j :: 0 <= i < j < |rows| ==> rows[i].pair != rows[j].pair
  }

  /** Where pairs are unique, filtering a pair out drops exactly its one row. */
  lemma WithoutDropsOne(rows: seq<StatusRow>, pair: Pair)
    requires Distinct(rows) && Find(rows, pair) < |rows|
    ensures Without(rows, pair) == rows[..Find(rows, pair)] + rows[Find(rows, pair) + 1..]
  {
    var k := Find(rows, pair);
    if k == 0 {
      WithoutAbsent(rows[1..], pair);
    } else {
      WithoutDropsOne(rows[1..], pair);
      hide Without, Find;
      SliceBehind(rows, k);
    }
  }

  lemma SliceBehind(rows: seq<StatusRow>, k: nat)
    requires 0 < k < |rows|
    ensures rows[..k] == [rows[0]] + rows[1..][..k - 1] && rows[k + 1..] == rows[1..][k..]
    ensures rows[..k] + rows[k + 1..] == [rows[0]] + (rows[1..][..k - 1] + rows[1..][k..])
  {}

  /** The post-batch record after one status run. */
  function AfterStatus(post: PostBatch, row: StatusRow): PostBatch
    requires post.Post?
  {
    var rows, k := post.statusPairs, Find(post.statusPairs, row.pair);
    post.(history := post.history + (if k < |rows| then [rows[k]] else []),
          statusPairs := (if k < |rows| then Without(rows, row.pair) else rows) + [row])
  }

  /** A rerun of a pair: the row standing for it, if any, is older. */
  ghost predicate Reruns(post: PostBatch, row: StatusRow)
    requires post.Post?
  {
    forall x :: x in post.statusPairs && x.pair == row.pair ==> x.okIds <= row.okIds && (x.exit == 0 ==> x.okIds != row.okIds)
  }

  lemma AfterStatusUnique(post: PostBatch, row: StatusRow)
    requires post.Post? && UniquePairs(post)
    ensures AfterStatus(post, row).statusPairs == Without(post.statusPairs, row.pair) + [row]
    ensures UniquePairs(AfterStatus(post, row))
  {
    var rows, k := post.statusPairs, Find(post.statusPairs, row.pair);
    if k == |rows| { WithoutAbsent(rows, row.pair); }
    WithoutDistinct(rows, row.pair);
    hide Find, Without;
    OneMoreDistinct(Without(rows, row.pair), row);
  }

  lemma OneMoreDistinct(rest: seq<StatusRow>, row: StatusRow)
    requires Distinct(rest) && forall x :: x in rest ==> x.pair != row.pair
    ensures Distinct(rest + [row])
  {
    assert forall i :: 0 <= i < |rest| ==> rest[i] in rest;
  }

  lemma {:induction false} WithoutDistinct(rows: seq<StatusRow>, pair: Pair)
    requires Distinct(rows)
    ensures Distinct(Without(rows, pair)) && forall x :: x in Without(rows, pair) ==> x in rows && x.pair != pair
    decreases |rows|
  {
    if rows != [] {
      WithoutDistinct(rows[1..], pair);
      assert forall x :: x in Without(rows[1..], pair) ==> x in rows[1..];
      forall x | x in rows[1..] ensures x in rows && x.pair != rows[0].pair { var i :| 0 <= i < |rows[1..]| && rows[1..][i] == x; assert rows[i + 1] == x; }
      if rows[0].pair != pair { HeadDistinct(rows[0], Without(rows[1..], pair)); }
    }
  }

  lemma HeadDistinct(row: StatusRow, rest: seq<StatusRow>)
    requires Distinct(rest) && forall x :: x in rest ==> x.pair != row.pair
    ensures Distinct([row] + rest)
  {
    assert forall i :: 0 <= i < |rest| ==> rest[i] in rest;
  }

  lemma MultisetOfJoin(a: seq<StatusRow>, c: seq<StatusRow>)
    ensures multiset(a + c) == multiset(a) + multiset(c)
  {}

  lemma ReplaceConserves(front: seq<StatusRow>, prior: StatusRow, rest: seq<StatusRow>, history: seq<StatusRow>, row: StatusRow)
    ensures multiset(front + rest + [row]) + multiset(history + [prior])
         == multiset(front + ([prior] + rest)) + multiset(history) + multiset{row}
  {
    MultisetOfJoin(front, [prior] + rest);
    MultisetOfJoin([prior], rest);
    MultisetOfJoin(front, rest);
    MultisetOfJoin(front + rest, [row]);
    MultisetOfJoin(history, [prior]);
  }

  /** What a status run records, spelled out by position. */
  lemma AfterStatusSlices(post: PostBatch, row: StatusRow, k: nat)
    requires post.Post? && UniquePairs(post) && k == Find(post.statusPairs, row.pair)
    ensures k < |post.statusPairs| ==> AfterStatus(post, row).statusPairs == post.statusPairs[..k] + post.statusPairs[k + 1..] + [row]
    ensures k < |post.statusPairs| ==> AfterStatus(post, row).history == post.history + [post.statusPairs[k]]
    ensures k == |post.statusPairs| ==> AfterStatus(post, row).statusPairs == post.statusPairs + [row]
    ensures k == |post.statusPairs| ==> AfterStatus(post, row).history == post.history
  {
    if k < |post.statusPairs| { WithoutDropsOne(post.statusPairs, row.pair); }
  }

  lemma AfterStatusConserves(post: PostBatch, row: StatusRow)
    requires post.Post? && UniquePairs(post)
    ensures multiset(AfterStatus(post, row).statusPairs) + multiset(AfterStatus(post, row).history)
         == multiset(post.statusPairs) + multiset(post.history) + multiset{row}
  {
    var rows, k := post.statusPairs, Find(post.statusPairs, row.pair);
    AfterStatusSlices(post, row, k);
    hide AfterStatus, Find;
    if k < |rows| {
      ReplaceConserves(rows[..k], rows[k], rows[k + 1..], post.history, row);
      assert rows == rows[..k] + ([rows[k]] + rows[k + 1..]);
    } else {
      MultisetOfJoin(rows, [row]);
    }
  }

  lemma StatusExtends(b: Batch, ok: set<Id>, post: PostBatch, log: seq<Effect>, row: StatusRow)
    requires PostSound(b, ok, post, log) && post.Post?
    requires {} < row.okIds == PairIds(b, ok, row.pair) && Reruns(post, row)
    ensures PostSound(b, ok, AfterStatus(post, row), log + [StatusRun(row)])
  {
    var post', e := AfterStatus(post, row), StatusRun(row);
    AfterStatusUnique(post, row);
    AfterStatusConserves(post, row);
    StatusLogAppend(log, e);
    StatusExtendsCover(post, log, row, post');
    StatusExtendsOrder(post, log, row);
    assert StatusWithin(b, ok, post') by {
      forall x | x in post'.statusPairs ensures {} < x.okIds <= PairIds(b, ok, x.pair) {
        WithoutMembers(post.statusPairs, row.pair, x);
      }
    }
    assert RollupRecorded(ok, post', log + [e]) by {
      assert forall x :: x in log + [e] && x != e ==> x in log;
    }
  }

  lemma StatusExtendsCover(post: PostBatch, log: seq<Effect>, row: StatusRow, post': PostBatch)
    requires post.Post? && UniquePairs(post) && StatusCovered(post, log)
    requires Reruns(post, row)
    requires post'.Post? && post'.statusPairs == Without(post.statusPairs, row.pair) + [row]
    ensures StatusCovered(post', log + [StatusRun(row)])
  {
    forall e, pair | e in log + [StatusRun(row)] && IsStatus(e, pair)
      ensures exists x :: x in post'.statusPairs && Covers(x, pair, e.row.okIds)
    {
      if e in log {
        var x :| x in post.statusPairs && Covers(x, pair, e.row.okIds);
        WithoutMembers(post.statusPairs, row.pair, x);
        if pair == row.pair { assert Covers(row, pair, e.row.okIds); }
      } else {
        assert Covers(row, pair, e.row.okIds);
      }
    }
  }

  lemma StatusExtendsOrder(post: PostBatch, log: seq<Effect>, row: StatusRow)
    requires LogOrdered(log) && StatusCovered(post, log) && post.Post?
    requires Reruns(post, row)
    ensures LogOrdered(log + [StatusRun(row)])
  {
    forall k | 0 <= k < |log| && IsStatus(log[k], row.pair) ensures log[k].row.okIds < row.okIds {
      assert log[k] in log;
      var x :| x in post.statusPairs && Covers(x, row.pair, log[k].row.okIds);
    }
  }

  lemma StatusStepKeepsSafe(b: Batch, ok: set<Id>, pair: Pair, env: Env, r: Run)
    requires Safe(b, r) && r.p.post.Post? && ok == AllOk(b, r.p)
    ensures var r' := StatusStep(b, ok, pair, env, r); Safe(b, r') && r'.p.rows == r.p.rows
  {
    var post, r' := r.p.post, StatusStep(b, ok, pair, env, r);
    var ids := PairIds(b, ok, pair);
    var row := StatusRow(pair, env.status(pair).0, env.status(pair).1, ids);
    if r' != r {
      SameRows(b, r.p, r'.p);
      assert r'.p.post == AfterStatus(post, row);
      if r.w.life > 1 && !r.w.lost {
        forall x | x in post.statusPairs && x.pair == pair ensures x == post.statusPairs[Find(post.statusPairs, pair)] {
          var i :| 0 <= i < |post.statusPairs| && post.statusPairs[i] == x;
          assert i == Find(post.statusPairs, pair);
        }
        StatusExtends(b, ok, post, r.w.log, row);
        LastCommitAppend(r.w.log, StatusRun(row));
      }
      EffectKeepsSafe(b, r, StatusRun(row), r'.p);
    }
  }

  lemma {:induction false} StatusLoopKeepsSafe(b: Batch, ok: set<Id>, i: nat, env: Env, r: Run)
    requires i <= |b.order| && Safe(b, r) && r.p.post.Post? && ok == AllOk(b, r.p)
    ensures var r' := StatusLoop(b, ok, i, env, r); Safe(b, r') && r'.p.rows == r.p.rows
    decreases |b.order| - i
  {
    if i < |b.order| {
      var r1 := StatusStep(b, ok, b.order[i], env, r);
      StatusStepKeepsSafe(b, ok, b.order[i], env, r);
      SameRows(b, r.p, r1.p);
      StatusLoopKeepsSafe(b, ok, i + 1, env, r1);
    }
  }

  // ------------------------------------------------------------ the whole run

  lemma PostOrderIgnores(b: Batch, ok: set<Id>, post: PostBatch, log: seq<Effect>, e: Effect, post': PostBatch)
    requires PostSound(b, ok, post, log) && post.Post? && (e.CommitDone? || e.CommitFailed?)
    requires post'.Post? && post' == post.(commit := post'.commit, commitError := post'.commitError)
    ensures PostSound(b, ok, post', log + [e])
  {
    InertKeeps(b, ok, post, log, e);
    hide LogOrdered;
  }

  lemma CommitKeepsSafe(b: Batch, env: Env, r: Run)
    requires Safe(b, r) && r.p.post.Post?
    ensures Safe(b, CommitStep(env, r))
  {
    var r' := CommitStep(env, r);
    var e := match env.commit case Committed(c) => CommitDone(c) case Failed(code) => CommitFailed(code);
    SameRows(b, r.p, r'.p);
    if r.w.life > 1 && !r.w.lost {
      PostOrderIgnores(b, AllOk(b, r.p), r.p.post, r.w.log, e, r'.p.post);
      LastCommitAppend(r.w.log, e);
    }
    EffectKeepsSafe(b, r, e, r'.p);
  }

  lemma NormalizeKeepsSound(b: Batch, p: Progress, log: seq<Effect>, failedIds: set<Id>)
    requires Sound(b, p, log) && Authorized(b, p) != {}
    ensures Sound(b, p.(post := Normalize(p.post).(failedIds := failedIds)), log)
  {
    SameRows(b, p, p.(post := Normalize(p.post).(failedIds := failedIds)));
  }

  lemma PostStageKeepsSafe(b: Batch, env: Env, r: Run)
    requires Safe(b, r) && Authorized(b, r.p) != {}
    ensures Safe(b, PostStage(b, env, r))
  {
    var ok := AllOk(b, r.p);
    var started := r.p.(post := Normalize(r.p.post).(failedIds := Authorized(b, r.p) - ok));
    if r.w.life > 0 && !r.w.lost { NormalizeKeepsSound(b, r.p, r.w.log, Authorized(b, r.p) - ok); }
    SameRows(b, r.p, started);
    var r1 := Checkpoint(r, started);
    RollupKeepsSafe(b, env, r1);
    var r2 := RollupStep(ok, env, r1);
    SameRows(b, r1.p, r2.p);
    StatusLoopKeepsSafe(b, ok, 0, env, r2);
    CommitKeepsSafe(b, env, StatusLoop(b, ok, 0, env, r2));
  }

  lemma PostBatchKeepsSafe(b: Batch, env: Env, r: Run)
    requires Safe(b, r)
    ensures Safe(b, PostBatchStep(b, env, r))
  {
    if Authorized(b, r.p) == {} {
      SameRows(b, r.p, r.p.(post := Skipped));
    } else if Attempted(b, r.p) == Authorized(b, r.p) && !(PostCommitted(r.p) && EffectsOk(r.p)) {
      PostStageKeepsSafe(b, env, r);
    }
  }

  lemma ApplyRunKeepsSafe(b: Batch, env: Env, w: World)
    requires !w.lost ==> Sound(b, w.disk, w.log)
    ensures Safe(b, ApplyRun(b, env, w))
  {
    var r := Checkpoint(Run(w.disk, w, 0), w.disk);
    ApplyRowsKeepsSafe(b, 0, PostCommitted(w.disk), env, r);
    PostBatchKeepsSafe(b, env, ApplyRows(b, 0, PostCommitted(w.disk), env, r));
  }
}
