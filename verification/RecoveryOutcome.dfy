/** What supervised recovery answers and leaves: exactly when a run or a chunk is
    refused, which files it takes up and in which order, how large a chunk is, and what
    the log, the checkpoint and the answer say afterwards. */
module RecoveryOutcome {
  import opened Common
  import opened Recovery
  import opened RecoveryChunks

  // ------------------------------------------------------------ the files taken up

  /** The files a checkpoint has not confirmed, in the order given. */
  lemma {:induction false} PendingIs(a: seq<Path>, b: seq<Path>, completed: seq<Path>, p: Path)
    ensures Pending([], completed) == [] && Pending([p], completed) == if p in completed then [] else [p]
    ensures Pending(a + b, completed) == Pending(a, completed) + Pending(b, completed)
    decreases |a|
  {
    assert [p][1..] == [];
    if a == [] {
      assert a + b == b;
    } else {
      assert (a + b)[1..] == a[1..] + b;
      PendingIs(a[1..], b, completed, p);
    }
  }

  /** The inventory files that are neither stored nor confirmed, in its order. */
  lemma {:induction false} RemainingIs(a: seq<Path>, b: seq<Path>, present: set<Path>, completed: seq<Path>, p: Path)
    ensures Remaining([], present, completed) == []
    ensures Remaining([p], present, completed) == if p in present || p in completed then [] else [p]
    ensures Remaining(a + b, present, completed) == Remaining(a, present, completed) + Remaining(b, present, completed)
    decreases |a|
  {
    assert [p][1..] == [];
    if a == [] {
      assert a + b == b;
    } else {
      assert (a + b)[1..] == a[1..] + b;
      RemainingIs(a[1..], b, present, completed, p);
    }
  }

  // ------------------------------------------------------------ a supervised run

  ghost predicate OtherStore(w: World, persist: string) {
    w.progress.Some? && w.progress.value.persist != persist
  }

  lemma {:induction false} NeverRefused(job: Job, batches: seq<Batch>, k: nat, ok: nat -> bool, completed: seq<Path>, w: World)
    requires k <= |batches| && job.timeout < SixHours
    ensures RunBatches(job, batches, k, ok, completed, w).1 != Refused
    decreases |batches| - k
  {
    if k < |batches| && ok(k) {
      var grown := completed + batches[k].files;
      NeverRefused(job, batches, k + 1, ok, grown, World(Some(Progress(job.persist, grown)), w.log + [Submission(batches[k].files, true)]));
    }
  }

  /** A run is refused exactly for a limit of six hours or more, batches of more than
      eighty files, no store named, a path that is no file, or the checkpoint of another
      store; and a refused run submits and records nothing. */
  lemma RunIsRefusedIff(job: Job, files: seq<Path>, ok: nat -> bool, w: World)
    ensures SideIngest(job, files, ok, w).1 == Refused <==>
      || job.timeout >= 21600 || job.size > 80 || job.persist == ""
      || (exists k :: 0 <= k < |files| && !job.isFile(files[k]))
      || OtherStore(w, job.persist)
    ensures SideIngest(job, files, ok, w).1 == Refused ==> SideIngest(job, files, ok, w).0 == w
  {
    if Admissible(job, files, w) {
      NeverRefused(job, Plan(job.kindOf, job.size, Pending(files, Completed(w)), []), 0, ok, Completed(w), w);
    }
  }

  /** Batches `from` up to `upto` succeed and the next one, if there is one, does not. */
  ghost predicate FirstFailure(ok: nat -> bool, batches: nat, from: nat, upto: nat) {
    from <= upto <= batches && (forall j :: from <= j < upto ==> ok(j)) && (upto < batches ==> !ok(upto))
  }

  lemma {:induction false} GoodIs(batches: seq<Batch>, k: nat, ok: nat -> bool)
    requires k <= |batches|
    ensures FirstFailure(ok, |batches|, k, GoodFrom(batches, k, ok))
    decreases |batches| - k
  {
    if k < |batches| && ok(k) { GoodIs(batches, k + 1, ok); }
  }

  lemma {:induction false} RunBatchesPersist(job: Job, batches: seq<Batch>, k: nat, ok: nat -> bool, completed: seq<Path>, w: World)
    requires k <= |batches| && job.timeout < SixHours && GoodFrom(batches, k, ok) > k
    ensures var r := RunBatches(job, batches, k, ok, completed, w).0; r.progress.Some? && r.progress.value.persist == job.persist
    decreases |batches| - k
  {
    var grown := completed + batches[k].files;
    if k + 1 < |batches| && ok(k + 1) {
      RunBatchesPersist(job, batches, k + 1, ok, grown, World(Some(Progress(job.persist, grown)), w.log + [Submission(batches[k].files, true)]));
    }
  }

  /** The log of a run over `plan` that got to batch `n`. */
  ghost predicate SubmittedUpTo(plan: seq<Batch>, n: nat, before: seq<Submission>, after: seq<Submission>) {
    && n <= |plan| && |after| == |before| + n + (if n < |plan| then 1 else 0)
    && after[..|before|] == before
    && (forall k :: 0 <= k < n ==> after[|before| + k] == Submission(plan[k].files, true))
    && (n < |plan| ==> after[|before| + n] == Submission(plan[n].files, false))
  }

  lemma SubmissionsAre(plan: seq<Batch>, n: nat, before: seq<Submission>)
    requires n <= |plan|
    ensures SubmittedUpTo(plan, n, before, before + (Submissions(plan[0..n]) + if n < |plan| then [Submission(plan[n].files, false)] else []))
  {
    SubmissionsAt(plan[0..n]);
  }

  /** Any other run submits the planned batches in order up to the first that fails, has
      all files of the earlier ones added to the checkpoint under its own store, and says
      how many files that holds. */
  lemma RunSubmitsUntilFailure(job: Job, files: seq<Path>, ok: nat -> bool, w: World) returns (n: nat)
    requires Admissible(job, files, w)
    ensures var plan := Plan(job.kindOf, job.size, Pending(files, Completed(w)), []);
      var r := SideIngest(job, files, ok, w);
      && FirstFailure(ok, |plan|, 0, n)
      && SubmittedUpTo(plan, n, w.log, r.0.log)
      && Completed(r.0) == Completed(w) + Files(plan[..n])
      && (if n == 0 then r.0.progress == w.progress else r.0.progress == Some(Progress(job.persist, Completed(r.0))))
      && r.1 == (if n == |plan| then Done(|Completed(r.0)|) else WorkerFailed(n, |Completed(r.0)|))
  {
    var plan := Plan(job.kindOf, job.size, Pending(files, Completed(w)), []);
    n := GoodFrom(plan, 0, ok);
    hide Plan, Pending, Files, RunBatches, Submissions, GoodFrom;
    GoodIs(plan, 0, ok);
    RunBatchesEffect(job, plan, 0, ok, Completed(w), w);
    RunBatchesLog(job, plan, 0, ok, Completed(w), w);
    SubmissionsAre(plan, n, w.log);
    if n > 0 { RunBatchesPersist(job, plan, 0, ok, Completed(w), w); }
    assert plan[0..n] == plan[..n];
  }

  // ------------------------------------------------------------ a chunk

  /** A chunk is the beginning of what is left: one file when it needs special care, else
      plain files up to the limit, the end or the next special file. */
  ghost predicate IsFirstChunk(kindOf: Path -> Kind, size: int, paths: seq<Path>, n: nat) {
    && 1 <= n <= |paths|
    && (forall k :: 0 <= k < n ==> kindOf(paths[k]) == kindOf(paths[0]))
    && (if kindOf(paths[0]).Plain? then
          && (n == 1 || n <= size)
          && (n == |paths| || n >= size || !kindOf(paths[n]).Plain?)
        else n == 1)
  }

  lemma {:induction false} FirstBatchIs(kindOf: Path -> Kind, size: int, paths: seq<Path>, current: seq<Path>)
    requires OpenGroup(kindOf, size, current) && current + paths != []
    ensures var plan := Plan(kindOf, size, paths, current);
      && plan != [] && plan[0].kind == kindOf((current + paths)[0])
      && plan[0].files <= current + paths && IsFirstChunk(kindOf, size, current + paths, |plan[0].files|)
    decreases |paths|
  {
    PlanStep(kindOf, size, paths, current);
    if paths == [] {
      assert current + paths == current;
    } else {
      var p, rest := paths[0], paths[1..];
      var grown := current + [p];
      assert paths == [p] + rest && grown + rest == current + paths;
      if kindOf(p).Plain? && |grown| < size { FirstBatchIs(kindOf, size, rest, grown); }
    }
  }

  /** The next chunk of what is left. */
  lemma NextChunkIs(job: Job, remaining: seq<Path>)
    requires remaining != []
    ensures NextChunk(job, remaining) <= remaining && IsFirstChunk(job.kindOf, job.size, remaining, |NextChunk(job, remaining)|)
    ensures NextTimeout(job, remaining) == if job.kindOf(remaining[0]).Plain? then job.timeout else 10800
  {
    assert [] + remaining == remaining;
    FirstBatchIs(job.kindOf, job.size, remaining, []);
  }

  ghost predicate Meet(a: seq<Path>, b: seq<Path>) {
    exists p :: p in a && p in b
  }

  lemma DisjointIs(a: seq<Path>, b: seq<Path>)
    ensures Disjoint(a, b) <==> !Meet(a, b)
  {
    if !Disjoint(a, b) {
      var k :| 0 <= k < |a| && a[k] in b;
      assert a[k] in a;
    }
  }

  /** A chunk is refused exactly when a file left to do is listed as confirmed, or, with
      something left to do, its time limit is six hours or more, the checkpoint names
      another store, or the chunk holds a file of the checkpoint. */
  ghost predicate ChunkRefused(job: Job, remaining: seq<Path>, confirmed: seq<Path>, w: World) {
    || Meet(remaining, confirmed)
    || (remaining != [] &&
         (|| (job.kindOf(remaining[0]).Plain? && job.timeout >= 21600)
          || (OtherStore(w, job.persist) && w.progress.value.persist != "" && job.persist != "")
          || Meet(NextChunk(job, remaining), Completed(w))))
  }

  /** A refused chunk and one with nothing to do change nothing.  Any other is submitted
      once; a failure leaves the checkpoint alone and is to be retried, a success adds the
      chunk behind what the checkpoint, or else the list of confirmed files, holds. */
  lemma ChunkOutcome(job: Job, remaining: seq<Path>, confirmed: seq<Path>, ok: bool, w: World)
    ensures var r := RunChunk(job, remaining, confirmed, ok, w);
      var files := NextChunk(job, remaining);
      if ChunkRefused(job, remaining, confirmed, w) then r == (w, Refuse)
      else if remaining == [] then r == (w, NoRemaining)
      else if !ok then r == (World(w.progress, w.log + [Submission(files, false)]), Retry)
      else r == (World(Some(Progress(job.persist, (if Completed(w) != [] then Completed(w) else confirmed) + files)),
                       w.log + [Submission(files, true)]),
                 Confirmed(files))
  {
    hide NextChunk, NextTimeout, Disjoint;
    var files := NextChunk(job, remaining);
    DisjointIs(remaining, confirmed);
    DisjointIs(files, Completed(w));
    DisjointIs(files, confirmed);
    if remaining != [] {
      NextChunkIs(job, remaining);
      if Meet(files, confirmed) {
        var p :| p in files && p in confirmed;
        assert p in remaining;
      }
    }
  }
}
