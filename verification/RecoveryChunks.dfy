/** Recovery chunk by chunk: what is left is recomputed from the inventory, the
    store and the checkpoint; its first batch alone is submitted; a confirmed file
    is refused, a failed chunk changes nothing. */
module RecoveryChunks {
  import opened Common
  import opened Recovery

  // ------------------------------------------------------------ one chunk

  datatype ChunkResult = Refuse | NoRemaining | Retry | Confirmed(files: seq<Path>)

  /** Inventory files that are neither in the store nor attempted. */
  function Remaining(files: seq<Path>, present: set<Path>, completed: seq<Path>): seq<Path> {
    if files == [] then []
    else (if files[0] !in present && files[0] !in completed then [files[0]] else []) + Remaining(files[1..], present, completed)
  }

  /** The files the next submission would hold. */
  function NextChunk(job: Job, remaining: seq<Path>): seq<Path> {
    var plan := Plan(job.kindOf, job.size, remaining, []);
    if plan == [] then [] else plan[0].files
  }

  function NextTimeout(job: Job, remaining: seq<Path>): nat {
    var plan := Plan(job.kindOf, job.size, remaining, []);
    if plan == [] then 0 else Timeout(plan[0].kind, job.timeout)
  }

  predicate Disjoint(a: seq<Path>, b: seq<Path>) {
    forall k :: 0 <= k < |a| ==> a[k] !in b
  }

  function RunChunk(job: Job, remaining: seq<Path>, confirmed: seq<Path>, ok: bool, w: World): (World, ChunkResult) {
    var files := NextChunk(job, remaining);
    if !Disjoint(remaining, confirmed) then (w, Refuse)
    else if remaining == [] then (w, NoRemaining)
    else if NextTimeout(job, remaining) >= SixHours then (w, Refuse)
    else if w.progress.Some? && w.progress.value.persist != "" && job.persist != "" && w.progress.value.persist != job.persist then (w, Refuse)
    else if !Disjoint(files, Completed(w)) then (w, Refuse)
    else
      var submitted := w.(log := w.log + [Submission(files, ok)]);
      if !ok then (submitted, Retry)
      else
        var completed := if Completed(w) != [] then Completed(w) else confirmed;
        if !Disjoint(files, completed) then (submitted, Refuse)
        else (submitted.(progress := Some(Progress(job.persist, completed + files))), Confirmed(files))
  }

  class ChunkRunner {
    var progress: Option<Progress>
    var log: seq<Submission>

    constructor (w: World)
      ensures State() == w
    {
      progress, log := w.progress, w.log;
    }

    function State(): World reads this { World(progress, log) }

    method RunOneRecoveryChunk(job: Job, remaining: seq<Path>, confirmed: seq<Path>, ok: bool) returns (result: ChunkResult)
      modifies this
      ensures (State(), result) == old(RunChunk(job, remaining, confirmed, ok, State()))
    {
      if !Disjoint(remaining, confirmed) { return Refuse; }
      var plan := PlanSupervisedBatches(job.kindOf, remaining, job.size);
      if remaining == [] { return NoRemaining; }
      PlanIsNonEmpty(job, remaining);
      if Timeout(plan[0].kind, job.timeout) >= SixHours { return Refuse; }
      if progress.Some? && progress.value.persist != "" && job.persist != "" && progress.value.persist != job.persist { return Refuse; }
      if !Disjoint(plan[0].files, Completed(State())) { return Refuse; }
      var completed := if Completed(State()) != [] then Completed(State()) else confirmed;
      log := log + [Submission(plan[0].files, ok)];
      if !ok { return Retry; }
      if !Disjoint(plan[0].files, completed) { return Refuse; }
      progress := Some(Progress(job.persist, completed + plan[0].files));
      result := Confirmed(plan[0].files);
    }
  }

  lemma PlanIsNonEmpty(job: Job, remaining: seq<Path>)
    requires remaining != []
    ensures Plan(job.kindOf, job.size, remaining, []) != []
  {
    assert [] + remaining == remaining;
    FirstBatchThenRest(job.kindOf, job.size, remaining, []);
  }

  // ------------------------------------------------------------ the operator's loop

  /** One round: recompute what is left, submit its first chunk.  Between rounds the
      store may gain any files. */
  datatype Round = Round(ok: bool, gained: set<Path>)

  datatype Campaign = Campaign(w: World, present: set<Path>)

  function Step(job: Job, inventory: seq<Path>, r: Campaign, round: Round): Campaign {
    var remaining := Remaining(inventory, r.present, Completed(r.w));
    Campaign(RunChunk(job, remaining, Completed(r.w), round.ok, r.w).0, r.present + round.gained)
  }

  function Rounds(job: Job, inventory: seq<Path>, r: Campaign, rounds: seq<Round>): Campaign
    decreases |rounds|
  {
    if rounds == [] then r else Rounds(job, inventory, Step(job, inventory, r, rounds[0]), rounds[1..])
  }

  function Successes(log: seq<Submission>): nat {
    if log == [] then 0 else (if log[0].ok then 1 else 0) + Successes(log[1..])
  }

  lemma {:induction false} RemainingMembers(files: seq<Path>, present: set<Path>, completed: seq<Path>, p: Path)
    ensures p in Remaining(files, present, completed) <==> p in files && p !in present && p !in completed
    decreases |files|
  {
    if files != [] { RemainingMembers(files[1..], present, completed, p); assert files == [files[0]] + files[1..]; }
  }

  /** More in the store or in the checkpoint leaves less to do. */
  lemma {:induction false} RemainingShrinks(files: seq<Path>, present: set<Path>, completed: seq<Path>, present': set<Path>, completed': seq<Path>)
    requires present <= present' && forall p :: p in completed ==> p in completed'
    ensures |Remaining(files, present', completed')| <= |Remaining(files, present, completed)|
    ensures (exists p :: p in Remaining(files, present, completed) && p in completed') ==>
              |Remaining(files, present', completed')| < |Remaining(files, present, completed)|
    decreases |files|
  {
    if files != [] {
      RemainingShrinks(files[1..], present, completed, present', completed');
      if p :| p in Remaining(files, present, completed) && p in completed' {
        RemainingMembers(files, present, completed, p);
        RemainingMembers(files[1..], present, completed, p);
      }
    }
  }

  lemma RemainingIsFresh(files: seq<Path>, present: set<Path>, completed: seq<Path>)
    ensures Disjoint(Remaining(files, present, completed), completed)
  {
    var remaining := Remaining(files, present, completed);
    forall k | 0 <= k < |remaining| ensures remaining[k] !in completed {
      assert remaining[k] in remaining;
      RemainingMembers(files, present, completed, remaining[k]);
    }
  }

  lemma ChunkIsRemaining(job: Job, remaining: seq<Path>)
    requires remaining != []
    ensures var files := NextChunk(job, remaining); files != [] && forall p :: p in files ==> p in remaining
  {
    var plan := Plan(job.kindOf, job.size, remaining, []);
    PlanIsNonEmpty(job, remaining);
    PlanConserves(job.kindOf, job.size, remaining, []);
    PlanProper(job.kindOf, job.size, remaining, []);
    assert plan[0] in plan && Proper(job.kindOf, job.size, plan[0]);
    assert [] + remaining == remaining;
    forall p | p in plan[0].files ensures p in remaining { FileOfBatch(plan, 0, p); }
  }

  /** The checkpoint, if there is one, is not of another store. */
  ghost predicate Ready(job: Job, w: World) {
    && job.timeout < SixHours
    && (w.progress.Some? ==> w.progress.value.persist == "" || job.persist == "" || w.progress.value.persist == job.persist)
  }

  /** One round submits nothing confirmed; a success confirms exactly its chunk, and
      anything else leaves the checkpoint as it is. */
  lemma StepEffect(job: Job, inventory: seq<Path>, r: Campaign, round: Round)
    requires Ready(job, r.w)
    ensures var remaining := Remaining(inventory, r.present, Completed(r.w)); var files := NextChunk(job, remaining);
      var r' := Step(job, inventory, r, round);
      && Ready(job, r'.w)
      && (remaining == [] ==> r'.w == r.w)
      && (remaining != [] ==> files != [] && Disjoint(files, Completed(r.w)) && r'.w.log == r.w.log + [Submission(files, round.ok)])
      && (remaining != [] && round.ok ==> Completed(r'.w) == Completed(r.w) + files)
      && (!round.ok ==> r'.w.progress == r.w.progress)
  {
    var remaining := Remaining(inventory, r.present, Completed(r.w));
    RemainingIsFresh(inventory, r.present, Completed(r.w));
    if remaining != [] {
      ChunkIsRemaining(job, remaining);
      PlanIsNonEmpty(job, remaining);
      var files := NextChunk(job, remaining);
      forall k | 0 <= k < |files| ensures files[k] !in Completed(r.w) {
        assert files[k] in remaining;
        var j :| 0 <= j < |remaining| && remaining[j] == files[k];
      }
    }
  }

  /** The second check for confirmed files, after the worker has already run, never fires. */
  lemma LateRefusalIsUnreachable(job: Job, inventory: seq<Path>, r: Campaign)
    requires Ready(job, r.w) && Remaining(inventory, r.present, Completed(r.w)) != []
    ensures RunChunk(job, Remaining(inventory, r.present, Completed(r.w)), Completed(r.w), true, r.w).1.Confirmed?
  {
    var remaining := Remaining(inventory, r.present, Completed(r.w));
    StepEffect(job, inventory, r, Round(true, {}));
    RemainingIsFresh(inventory, r.present, Completed(r.w));
    PlanIsNonEmpty(job, remaining);
  }

  lemma {:induction false} SuccessesAppend(log: seq<Submission>, s: Submission)
    ensures Successes(log + [s]) == Successes(log) + if s.ok then 1 else 0
    decreases |log|
  {
    if log == [] {
      assert [s][1..] == [] && log + [s] == [s];
    } else {
      assert (log + [s])[1..] == log[1..] + [s];
      SuccessesAppend(log[1..], s);
    }
  }

  /** No file of a successful submission is in any later one. */
  ghost predicate NoReplay(log: seq<Submission>) {
    forall i, j :: 0 <= i < j < |log| && log[i].ok ==> Disjoint(log[j].files, log[i].files)
  }

  ghost predicate LogConfirmed(w: World) {
    forall i, p :: 0 <= i < |w.log| && w.log[i].ok && p in w.log[i].files ==> p in Completed(w)
  }

  lemma StepKeeps(job: Job, inventory: seq<Path>, r: Campaign, round: Round)
    requires Ready(job, r.w) && NoReplay(r.w.log) && LogConfirmed(r.w)
    ensures var r' := Step(job, inventory, r, round); NoReplay(r'.w.log) && LogConfirmed(r'.w)
  {
    StepEffect(job, inventory, r, round);
    var r' := Step(job, inventory, r, round);
    if Remaining(inventory, r.present, Completed(r.w)) != [] {
      var n := |r.w.log|;
      forall i, j | 0 <= i < j < |r'.w.log| && r'.w.log[i].ok ensures Disjoint(r'.w.log[j].files, r'.w.log[i].files) {
        if j < n { assert Disjoint(r.w.log[j].files, r.w.log[i].files); }
      }
    }
  }

  /** Each success brings the end nearer by at least one file. */
  lemma StepCounts(job: Job, inventory: seq<Path>, r: Campaign, round: Round)
    requires Ready(job, r.w)
    ensures var r' := Step(job, inventory, r, round);
      |Remaining(inventory, r'.present, Completed(r'.w))| + Successes(r'.w.log)
        <= |Remaining(inventory, r.present, Completed(r.w))| + Successes(r.w.log)
  {
    StepEffect(job, inventory, r, round);
    var r' := Step(job, inventory, r, round);
    var remaining := Remaining(inventory, r.present, Completed(r.w));
    RemainingShrinks(inventory, r.present, Completed(r.w), r'.present, Completed(r'.w));
    if remaining != [] {
      var files := NextChunk(job, remaining);
      SuccessesAppend(r.w.log, Submission(files, round.ok));
      ChunkIsRemaining(job, remaining);
      if round.ok { assert files[0] in remaining && files[0] in Completed(r'.w); }
    }
  }

  /** Nothing in `files` was ever submitted. */
  ghost predicate Spared(log: seq<Submission>, files: seq<Path>) {
    forall k :: 0 <= k < |log| ==> Disjoint(log[k].files, files)
  }

  ghost predicate Within(files: seq<Path>, w: World) {
    forall p :: p in files ==> p in Completed(w)
  }

  lemma StepSpares(job: Job, inventory: seq<Path>, r: Campaign, round: Round, files: seq<Path>)
    requires Ready(job, r.w) && Spared(r.w.log, files) && Within(files, r.w)
    ensures var r' := Step(job, inventory, r, round); Spared(r'.w.log, files) && Within(files, r'.w)
  {
    StepEffect(job, inventory, r, round);
    var r' := Step(job, inventory, r, round);
    var remaining := Remaining(inventory, r.present, Completed(r.w));
    forall k | 0 <= k < |r'.w.log| ensures Disjoint(r'.w.log[k].files, files) {
      if k < |r.w.log| { assert r'.w.log[k] == r.w.log[k]; } else { assert remaining != []; }
    }
  }

  lemma {:induction false} RoundsKeep(job: Job, inventory: seq<Path>, r: Campaign, rounds: seq<Round>, files: seq<Path>)
    requires Ready(job, r.w) && NoReplay(r.w.log) && LogConfirmed(r.w) && Spared(r.w.log, files) && Within(files, r.w)
    ensures var r' := Rounds(job, inventory, r, rounds);
      && Ready(job, r'.w) && NoReplay(r'.w.log) && Spared(r'.w.log, files)
      && |Remaining(inventory, r'.present, Completed(r'.w))| + Successes(r'.w.log)
           <= |Remaining(inventory, r.present, Completed(r.w))| + Successes(r.w.log)
    decreases |rounds|
  {
    if rounds != [] {
      StepEffect(job, inventory, r, rounds[0]);
      StepKeeps(job, inventory, r, rounds[0]);
      StepSpares(job, inventory, r, rounds[0], files);
      StepCounts(job, inventory, r, rounds[0]);
      RoundsKeep(job, inventory, Step(job, inventory, r, rounds[0]), rounds[1..], files);
    }
  }

  /** Over any rounds, whatever checkpoint and store they start from, whatever fails and
      whatever the store gains: no file confirmed before or during them is submitted
      again, at most as many chunks succeed as files were left, and once that many have,
      every file is stored or confirmed. */
  lemma RecoveryFinishes(job: Job, inventory: seq<Path>, progress: Option<Progress>, present: set<Path>, rounds: seq<Round>)
    requires Ready(job, World(progress, []))
    ensures var start := World(progress, []); var r := Rounds(job, inventory, Campaign(start, present), rounds);
      var left := |Remaining(inventory, present, Completed(start))|;
      && NoReplay(r.w.log) && Spared(r.w.log, Completed(start))
      && Successes(r.w.log) <= left
      && (Successes(r.w.log) == left ==>
            Remaining(inventory, r.present, Completed(r.w)) == [] && forall p :: p in inventory ==> p in r.present || p in Completed(r.w))
  {
    var start := World(progress, []);
    var r := Rounds(job, inventory, Campaign(start, present), rounds);
    RoundsKeep(job, inventory, Campaign(start, present), rounds, Completed(start));
    if Successes(r.w.log) == |Remaining(inventory, present, Completed(start))| {
      forall p | p in inventory ensures p in r.present || p in Completed(r.w) {
        RemainingMembers(inventory, r.present, Completed(r.w), p);
      }
    }
  }
}
