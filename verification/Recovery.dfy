/** Supervised recovery ingest: files are planned into isolated batches, every
    confirmed batch is checkpointed, a failed one leaves the checkpoint alone.
    Worker processes are outcomes; `log` records what was submitted to them. */
module Recovery {
  import opened Common

  type Path = string

  /** How one file must be ingested. */
  datatype Kind = Plain | Video | LargeJson

  datatype Batch = Batch(kind: Kind, files: seq<Path>)

  const SixHours: nat := 6 * 3600
  const SpecialTimeout: nat := 3 * 3600
  const MaxFiles: nat := 80

  function Timeout(kind: Kind, plain: nat): nat {
    if kind.Plain? then plain else SpecialTimeout
  }

  // ------------------------------------------------------------ planning

  function Flush(current: seq<Path>): seq<Batch> {
    if current == [] then [] else [Batch(Plain, current)]
  }

  /** Plain files are grouped up to `size`; any other file is a batch of its own. */
  function Plan(kindOf: Path -> Kind, size: int, paths: seq<Path>, current: seq<Path>): seq<Batch>
    decreases |paths|
  {
    if paths == [] then Flush(current)
    else if !kindOf(paths[0]).Plain? then
      Flush(current) + [Batch(kindOf(paths[0]), [paths[0]])] + Plan(kindOf, size, paths[1..], [])
    else
      var grown := current + [paths[0]];
      if |grown| >= size then [Batch(Plain, grown)] + Plan(kindOf, size, paths[1..], [])
      else Plan(kindOf, size, paths[1..], grown)
  }

  function Files(batches: seq<Batch>): seq<Path> {
    if batches == [] then [] else batches[0].files + Files(batches[1..])
  }

  method PlanSupervisedBatches(kindOf: Path -> Kind, paths: seq<Path>, size: int) returns (batches: seq<Batch>)
    ensures batches == Plan(kindOf, size, paths, [])
  {
    hide Flush;
    batches := [];
    var current: seq<Path> := [];
    for i := 0 to |paths|
      invariant batches + Plan(kindOf, size, paths[i..], current) == Plan(kindOf, size, paths, [])
    {
      var path := paths[i];
      var rest := paths[i + 1..];
      assert paths[i..][1..] == rest;
      if kindOf(path) != Plain {
        ghost var before := batches;
        batches := batches + Flush(current);
        batches := batches + [Batch(kindOf(path), [path])];
        assert batches + Plan(kindOf, size, rest, []) == before + (Flush(current) + [Batch(kindOf(path), [path])] + Plan(kindOf, size, rest, []));
        current := [];
      } else {
        current := current + [path];
        if |current| >= size {
          assert (batches + [Batch(Plain, current)]) + Plan(kindOf, size, rest, []) == batches + ([Batch(Plain, current)] + Plan(kindOf, size, rest, []));
          batches := batches + [Batch(Plain, current)];
          current := [];
        }
      }
    }
    assert paths[|paths|..] == [];
    batches := batches + Flush(current);
  }

  // ------------------------------------------------------------ what a plan looks like

  ghost predicate Proper(kindOf: Path -> Kind, size: int, b: Batch) {
    && b.files != []
    && (forall k :: 0 <= k < |b.files| ==> kindOf(b.files[k]) == b.kind)
    && (if b.kind.Plain? then |b.files| <= size || |b.files| == 1 else |b.files| == 1)
  }

  /** A plain batch is cut short only by the end or by a file of another kind. */
  ghost predicate Tight(size: int, batches: seq<Batch>) {
    forall k :: 0 <= k < |batches| - 1 && batches[k].kind.Plain? && batches[k + 1].kind.Plain? ==> |batches[k].files| >= size
  }

  /** A plan under construction: the open group holds plain files below the limit. */
  ghost predicate OpenGroup(kindOf: Path -> Kind, size: int, current: seq<Path>) {
    (forall k :: 0 <= k < |current| ==> kindOf(current[k]).Plain?) && (current == [] || |current| < size)
  }

  /** The plan is a reading of the input in order: nothing lost, nothing repeated. */
  lemma {:induction false} PlanConserves(kindOf: Path -> Kind, size: int, paths: seq<Path>, current: seq<Path>)
    ensures Files(Plan(kindOf, size, paths, current)) == current + paths
    decreases |paths|
  {
    hide Plan;
    PlanStep(kindOf, size, paths, current);
    if paths == [] {
      FilesOfFlush(current);
      assert current + paths == current;
    } else {
      var p, rest := paths[0], paths[1..];
      assert paths == [p] + rest;
      if !kindOf(p).Plain? {
        PlanConserves(kindOf, size, rest, []);
        SpecialFiles(current, Batch(kindOf(p), [p]), Plan(kindOf, size, rest, []), p, rest);
      } else {
        var grown := current + [p];
        PlanConserves(kindOf, size, rest, if |grown| >= size then [] else grown);
        FilesCons(Batch(Plain, grown), Plan(kindOf, size, rest, []));
        assert grown + rest == current + paths && [] + rest == rest;
      }
    }
  }

  /** One step of the planning loop. */
  lemma PlanStep(kindOf: Path -> Kind, size: int, paths: seq<Path>, current: seq<Path>)
    ensures paths == [] ==> Plan(kindOf, size, paths, current) == Flush(current)
    ensures paths != [] && !kindOf(paths[0]).Plain? ==>
      Plan(kindOf, size, paths, current) == Flush(current) + [Batch(kindOf(paths[0]), [paths[0]])] + Plan(kindOf, size, paths[1..], [])
    ensures paths != [] && kindOf(paths[0]).Plain? ==> var grown := current + [paths[0]];
      Plan(kindOf, size, paths, current) ==
        if |grown| >= size then [Batch(Plain, grown)] + Plan(kindOf, size, paths[1..], []) else Plan(kindOf, size, paths[1..], grown)
  {
    hide Flush;
  }

  lemma FilesOfFlush(current: seq<Path>)
    ensures Files(Flush(current)) == current
  {
    if current != [] { assert Flush(current)[1..] == []; }
  }

  lemma FilesCons(b: Batch, rest: seq<Batch>)
    ensures Files([b] + rest) == b.files + Files(rest)
  {
    assert ([b] + rest)[1..] == rest;
  }

  lemma SpecialFiles(current: seq<Path>, b: Batch, after: seq<Batch>, p: Path, rest: seq<Path>)
    requires b.files == [p] && Files(after) == [] + rest
    ensures Files(Flush(current) + [b] + after) == current + ([p] + rest)
  {
    FilesConcat(Flush(current), [b] + after);
    FilesOfFlush(current);
    FilesCons(b, after);
    hide Files, Flush;
    assert Flush(current) + [b] + after == Flush(current) + ([b] + after);
    assert [] + rest == rest;
  }

  /** Special files alone, plain batches within the limit. */
  lemma {:induction false} PlanProper(kindOf: Path -> Kind, size: int, paths: seq<Path>, current: seq<Path>)
    requires OpenGroup(kindOf, size, current)
    ensures forall b :: b in Plan(kindOf, size, paths, current) ==> Proper(kindOf, size, b)
    decreases |paths|
  {
    if paths != [] {
      var p, rest := paths[0], paths[1..];
      var grown := current + [p];
      if !kindOf(p).Plain? || |grown| >= size { PlanProper(kindOf, size, rest, []); } else { PlanProper(kindOf, size, rest, grown); }
    }
  }

  /** And as full as possible. */
  lemma {:induction false} PlanTight(kindOf: Path -> Kind, size: int, paths: seq<Path>, current: seq<Path>)
    requires OpenGroup(kindOf, size, current)
    ensures Tight(size, Plan(kindOf, size, paths, current))
    ensures current != [] ==> Plan(kindOf, size, paths, current) != [] && Plan(kindOf, size, paths, current)[0].kind.Plain?
    decreases |paths|
  {
    if paths != [] {
      var p, rest := paths[0], paths[1..];
      var grown := current + [p];
      var plan := Plan(kindOf, size, paths, current);
      if !kindOf(p).Plain? {
        PlanTight(kindOf, size, rest, []);
        var after := Plan(kindOf, size, rest, []);
        TightAfterSpecial(size, Batch(kindOf(p), [p]), after);
        if current != [] {
          assert plan == [Batch(Plain, current)] + ([Batch(kindOf(p), [p])] + after);
        } else {
          assert plan == [Batch(kindOf(p), [p])] + after;
        }
      } else if |grown| >= size {
        PlanTight(kindOf, size, rest, []);
      } else {
        PlanTight(kindOf, size, rest, grown);
      }
    }
  }

  lemma TightAfterSpecial(size: int, b: Batch, after: seq<Batch>)
    requires Tight(size, after) && !b.kind.Plain?
    ensures Tight(size, [b] + after)
  {
    forall k | 0 <= k < |after| && ([b] + after)[k].kind.Plain? && ([b] + after)[k + 1].kind.Plain? ensures |([b] + after)[k].files| >= size {
      assert ([b] + after)[k] == after[k - 1];
    }
  }

  /** Planning what the first batch leaves gives the rest of the plan. */
  lemma {:induction false} FirstBatchThenRest(kindOf: Path -> Kind, size: int, paths: seq<Path>, current: seq<Path>)
    requires current + paths != [] && (current == [] || |current| < size)
    requires forall k :: 0 <= k < |current| ==> kindOf(current[k]).Plain?
    ensures var plan := Plan(kindOf, size, paths, current);
      && plan != [] && |current| <= |plan[0].files| <= |current + paths|
      && plan[1..] == Plan(kindOf, size, paths[|plan[0].files| - |current|..], [])
    decreases |paths|
  {
    var plan := Plan(kindOf, size, paths, current);
    if paths == [] {
      assert plan == [Batch(Plain, current)] && paths[0..] == [];
    } else {
      var p, rest := paths[0], paths[1..];
      if !kindOf(p).Plain? {
        if current == [] {
          assert plan == [Batch(kindOf(p), [p])] + Plan(kindOf, size, rest, []);
        } else {
          var tail := [Batch(kindOf(p), [p])] + Plan(kindOf, size, rest, []);
          assert plan == [Batch(Plain, current)] + tail;
          assert paths[0..] == paths && Flush([]) + tail == tail;
          assert Plan(kindOf, size, paths, []) == Flush([]) + [Batch(kindOf(p), [p])] + Plan(kindOf, size, rest, []);
        }
      } else {
        var grown := current + [p];
        if |grown| < size {
          FirstBatchThenRest(kindOf, size, rest, grown);
          assert rest[|plan[0].files| - |grown|..] == paths[|plan[0].files| - |current|..];
        }
      }
    }
  }

  /** Planning the files of any suffix of a plan gives that very suffix, so a resumed
      run goes on with the batches a stopped one left. */
  lemma {:induction false} ResumePlansTheRest(kindOf: Path -> Kind, size: int, paths: seq<Path>, k: nat)
    requires k <= |Plan(kindOf, size, paths, [])|
    ensures Plan(kindOf, size, Files(Plan(kindOf, size, paths, [])[k..]), []) == Plan(kindOf, size, paths, [])[k..]
    decreases k
  {
    var plan := Plan(kindOf, size, paths, []);
    PlanConserves(kindOf, size, paths, []);
    assert [] + paths == paths;
    if k == 0 {
      assert plan[0..] == plan;
    } else {
      FirstBatchThenRest(kindOf, size, paths, []);
      var n := |plan[0].files|;
      assert plan[1..] == Plan(kindOf, size, paths[n..], []);
      ResumePlansTheRest(kindOf, size, paths[n..], k - 1);
      assert plan[k..] == plan[1..][k - 1..];
    }
  }

  // ------------------------------------------------------------ supervised ingest

  datatype Progress = Progress(persist: string, completed: seq<Path>)

  datatype Submission = Submission(files: seq<Path>, ok: bool)

  datatype World = World(progress: Option<Progress>, log: seq<Submission>)

  datatype Result = Refused | WorkerFailed(batch: nat, completed: nat) | Done(completed: nat)

  datatype Job = Job(kindOf: Path -> Kind, isFile: Path -> bool, size: int, timeout: nat, persist: string)

  function Completed(w: World): seq<Path> {
    if w.progress.Some? then w.progress.value.completed else []
  }

  /** Submit the batches from `k` on until one fails, recording each success. */
  function RunBatches(job: Job, batches: seq<Batch>, k: nat, ok: nat -> bool, completed: seq<Path>, w: World): (World, Result)
    requires k <= |batches|
    decreases |batches| - k
  {
    if k == |batches| then (w, Done(|completed|))
    else if Timeout(batches[k].kind, job.timeout) >= SixHours then (w, Refused)
    else if !ok(k) then (w.(log := w.log + [Submission(batches[k].files, false)]), WorkerFailed(k, |completed|))
    else
      var grown := completed + batches[k].files;
      RunBatches(job, batches, k + 1, ok, grown, World(Some(Progress(job.persist, grown)), w.log + [Submission(batches[k].files, true)]))
  }

  function Pending(files: seq<Path>, completed: seq<Path>): seq<Path> {
    if files == [] then [] else (if files[0] in completed then [] else [files[0]]) + Pending(files[1..], completed)
  }

  predicate Admissible(job: Job, files: seq<Path>, w: World) {
    && job.timeout < SixHours && job.size <= MaxFiles && job.persist != ""
    && (forall k :: 0 <= k < |files| ==> job.isFile(files[k]))
    && (w.progress.Some? ==> w.progress.value.persist == job.persist)
  }

  function SideIngest(job: Job, files: seq<Path>, ok: nat -> bool, w: World): (World, Result) {
    if !Admissible(job, files, w) then (w, Refused)
    else RunBatches(job, Plan(job.kindOf, job.size, Pending(files, Completed(w)), []), 0, ok, Completed(w), w)
  }

  class Supervisor {
    var progress: Option<Progress>
    var log: seq<Submission>

    constructor (w: World)
      ensures State() == w
    {
      progress, log := w.progress, w.log;
    }

    function State(): World reads this { World(progress, log) }

    method SupervisedSideIngest(job: Job, files: seq<Path>, ok: nat -> bool) returns (result: Result)
      modifies this
      ensures (State(), result) == old(SideIngest(job, files, ok, State()))
    {
      if job.timeout >= SixHours || job.size > MaxFiles || job.persist == "" { return Refused; }
      for i := 0 to |files|
        invariant forall k :: 0 <= k < i ==> job.isFile(files[k])
        invariant State() == old(State())
      {
        if !job.isFile(files[i]) { return Refused; }
      }
      if progress.Some? && progress.value.persist != job.persist { return Refused; }
      var completed := Completed(State());
      var pending := PendingFiles(files, completed);
      var batches := PlanSupervisedBatches(job.kindOf, pending, job.size);
      ghost var start, before := State(), completed;
      for k := 0 to |batches|
        invariant RunBatches(job, batches, k, ok, completed, State()) == RunBatches(job, batches, 0, ok, before, start)
      {
        var batch := batches[k];
        if Timeout(batch.kind, job.timeout) >= SixHours { return Refused; }
        log := log + [Submission(batch.files, ok(k))];
        if !ok(k) { return WorkerFailed(k, |completed|); }
        completed := completed + batch.files;
        progress := Some(Progress(job.persist, completed));
      }
      result := Done(|completed|);
    }
  }

  method PendingFiles(files: seq<Path>, completed: seq<Path>) returns (pending: seq<Path>)
    ensures pending == Pending(files, completed)
  {
    pending := [];
    for i := 0 to |files|
      invariant pending + Pending(files[i..], completed) == Pending(files, completed)
    {
      assert files[i..][1..] == files[i + 1..];
      if files[i] !in completed { pending := pending + [files[i]]; }
    }
  }

  // ------------------------------------------------------------ stopping and resuming

  /** How many batches from `k` on succeed before the first that does not. */
  function GoodFrom(batches: seq<Batch>, k: nat, ok: nat -> bool): (n: nat)
    requires k <= |batches|
    ensures k <= n <= |batches|
    decreases |batches| - k
  {
    if k == |batches| || !ok(k) then k else GoodFrom(batches, k + 1, ok)
  }

  /** What a run of batches confirms and how it ends. */
  lemma {:induction false} RunBatchesEffect(job: Job, batches: seq<Batch>, k: nat, ok: nat -> bool, completed: seq<Path>, w: World)
    requires k <= |batches| && job.timeout < SixHours && completed == Completed(w)
    requires w.progress.Some? ==> w.progress.value.persist == job.persist
    ensures var r := RunBatches(job, batches, k, ok, completed, w); var n := GoodFrom(batches, k, ok);
      && Completed(r.0) == completed + Files(batches[k..n])
      && r.1 == (if n == |batches| then Done(|Completed(r.0)|) else WorkerFailed(n, |Completed(r.0)|))
      && (r.0.progress.Some? ==> r.0.progress.value.persist == job.persist)
      && (n == k ==> r.0.progress == w.progress)
    decreases |batches| - k
  {
    var n := GoodFrom(batches, k, ok);
    if k == |batches| || !ok(k) {
      assert batches[k..n] == [];
    } else {
      var grown := completed + batches[k].files;
      RunBatchesEffect(job, batches, k + 1, ok, grown, World(Some(Progress(job.persist, grown)), w.log + [Submission(batches[k].files, true)]));
      assert batches[k..n] == [batches[k]] + batches[k + 1..n];
      assert batches[k..n][1..] == batches[k + 1..n];
    }
  }

  /** What a run of batches submits. */
  lemma {:induction false} RunBatchesLog(job: Job, batches: seq<Batch>, k: nat, ok: nat -> bool, completed: seq<Path>, w: World)
    requires k <= |batches| && job.timeout < SixHours
    ensures var n := GoodFrom(batches, k, ok);
      RunBatches(job, batches, k, ok, completed, w).0.log
        == w.log + (Submissions(batches[k..n]) + if n < |batches| then [Submission(batches[n].files, false)] else [])
    decreases |batches| - k
  {
    var n := GoodFrom(batches, k, ok);
    if k == |batches| || !ok(k) {
      assert batches[k..n] == [];
    } else {
      var grown := completed + batches[k].files;
      RunBatchesLog(job, batches, k + 1, ok, grown, World(Some(Progress(job.persist, grown)), w.log + [Submission(batches[k].files, true)]));
      assert batches[k..n] == [batches[k]] + batches[k + 1..n];
      assert batches[k..n][1..] == batches[k + 1..n];
    }
  }

  function Submissions(batches: seq<Batch>): seq<Submission> {
    if batches == [] then [] else [Submission(batches[0].files, true)] + Submissions(batches[1..])
  }

  /** A failed worker leaves the checkpoint at the batches confirmed before it. */
  lemma FailureKeepsConfirmed(job: Job, files: seq<Path>, ok: nat -> bool, w: World)
    requires Admissible(job, files, w) && SideIngest(job, files, ok, w).1.WorkerFailed?
    ensures var r := SideIngest(job, files, ok, w); var n := r.1.batch;
      var plan := Plan(job.kindOf, job.size, Pending(files, Completed(w)), []);
      && n < |plan| && Completed(r.0) == Completed(w) + Files(plan[..n]) && |Completed(r.0)| == r.1.completed
      && (n == 0 ==> r.0.progress == w.progress)
  {
    var plan := Plan(job.kindOf, job.size, Pending(files, Completed(w)), []);
    RunBatchesEffect(job, plan, 0, ok, Completed(w), w);
  }

  lemma {:induction false} PendingMembers(files: seq<Path>, completed: seq<Path>, p: Path)
    ensures p in Pending(files, completed) <==> p in files && p !in completed
    decreases |files|
  {
    if files != [] { PendingMembers(files[1..], completed, p); assert files == [files[0]] + files[1..]; }
  }

  lemma {:induction false} PendingDistinct(files: seq<Path>, completed: seq<Path>)
    requires forall i, j :: 0 <= i < j < |files| ==> files[i] != files[j]
    ensures var ps := Pending(files, completed); forall i, j :: 0 <= i < j < |ps| ==> ps[i] != ps[j]
    decreases |files|
  {
    if files != [] {
      PendingDistinct(files[1..], completed);
      PendingMembers(files[1..], completed, files[0]);
    }
  }

  /** Filtering once more by what the first part of a distinct list confirmed leaves the second part. */
  lemma {:induction false} PendingAfterPrefix(files: seq<Path>, completed: seq<Path>, a: seq<Path>, b: seq<Path>)
    requires forall i, j :: 0 <= i < j < |files| ==> files[i] != files[j]
    requires Pending(files, completed) == a + b
    ensures Pending(files, completed + a) == b
    decreases |files|
  {
    if files != [] {
      var p, rest := files[0], files[1..];
      PendingMembers(rest, completed, p);
      PendingMembers(files, completed, p);
      if p in completed {
        PendingAfterPrefix(rest, completed, a, b);
      } else if a == [] {
        assert completed + a == completed;
      } else {
        assert Pending(files, completed) == [p] + Pending(rest, completed);
        assert a == [p] + a[1..] && (a + b)[1..] == a[1..] + b;
        assert p !in rest;
        PendingAfterPrefix(rest, completed, a[1..], b);
        SkipAbsent(rest, completed, a[1..], p);
        assert completed + a == completed + [p] + a[1..];
      }
    }
  }

  lemma {:induction false} SkipAbsent(files: seq<Path>, completed: seq<Path>, a: seq<Path>, p: Path)
    requires p !in files
    ensures Pending(files, completed + [p] + a) == Pending(files, completed + a)
    decreases |files|
  {
    if files != [] { SkipAbsent(files[1..], completed, a, p); }
  }

  lemma {:induction false} FilesConcat(a: seq<Batch>, b: seq<Batch>)
    ensures Files(a + b) == Files(a) + Files(b)
    decreases |a|
  {
    if a == [] {
      assert a + b == b;
    } else {
      assert (a + b)[1..] == a[1..] + b;
      FilesConcat(a[1..], b);
    }
  }

  /** A run that fails at some batch, resumed with the same files, submits exactly
      the batches the first one left, in the same shape. */
  lemma ResumeContinues(job: Job, files: seq<Path>, ok: nat -> bool, w: World)
    requires Admissible(job, files, w) && SideIngest(job, files, ok, w).1.WorkerFailed?
    requires forall i, j :: 0 <= i < j < |files| ==> files[i] != files[j]
    ensures var r := SideIngest(job, files, ok, w); var n := r.1.batch;
      var plan := Plan(job.kindOf, job.size, Pending(files, Completed(w)), []);
      && Admissible(job, files, r.0) && n < |plan|
      && Plan(job.kindOf, job.size, Pending(files, Completed(r.0)), []) == plan[n..]
  {
    hide Plan, Pending, Files, RunBatches;
    var pending := Pending(files, Completed(w));
    var plan := Plan(job.kindOf, job.size, pending, []);
    var r := SideIngest(job, files, ok, w);
    RunBatchesEffect(job, plan, 0, ok, Completed(w), w);
    FailureKeepsConfirmed(job, files, ok, w);
    var n := r.1.batch;
    PlanConserves(job.kindOf, job.size, pending, []);
    assert [] + pending == pending && plan == plan[..n] + plan[n..];
    FilesConcat(plan[..n], plan[n..]);
    PendingAfterPrefix(files, Completed(w), Files(plan[..n]), Files(plan[n..]));
    ResumePlansTheRest(job.kindOf, job.size, pending, n);
  }

  /** Nothing already confirmed is submitted again. */
  lemma ConfirmedNeverResubmitted(job: Job, files: seq<Path>, ok: nat -> bool, w: World, k: nat, p: Path)
    requires Admissible(job, files, w)
    requires var log := SideIngest(job, files, ok, w).0.log; |w.log| <= k < |log| && p in log[k].files
    ensures p in files && p !in Completed(w)
  {
    var pending := Pending(files, Completed(w));
    var plan := Plan(job.kindOf, job.size, pending, []);
    RunBatchesLog(job, plan, 0, ok, Completed(w), w);
    var n := GoodFrom(plan, 0, ok);
    SubmittedBatch(plan, n, k - |w.log|);
    FileOfBatch(plan, k - |w.log|, p);
    PlanConserves(job.kindOf, job.size, pending, []);
    PendingMembers(files, Completed(w), p);
  }

  /** A run that ends well has confirmed every file it was given. */
  lemma SuccessConfirmsAll(job: Job, files: seq<Path>, ok: nat -> bool, w: World)
    requires Admissible(job, files, w)
    ensures var r := SideIngest(job, files, ok, w); r.1 != Refused && (r.1.Done? ==> forall p :: p in files ==> p in Completed(r.0))
  {
    var pending := Pending(files, Completed(w));
    var plan := Plan(job.kindOf, job.size, pending, []);
    RunBatchesEffect(job, plan, 0, ok, Completed(w), w);
    PlanConserves(job.kindOf, job.size, pending, []);
    assert [] + pending == pending && plan[0..|plan|] == plan;
    forall p | p in files ensures p in pending || p in Completed(w) { PendingMembers(files, Completed(w), p); }
  }

  /** The `j`-th submission of a run is its `j`-th batch. */
  lemma SubmittedBatch(plan: seq<Batch>, n: nat, j: nat)
    requires n <= |plan| && j < |Submissions(plan[0..n])| + if n < |plan| then 1 else 0
    ensures j < |plan|
    ensures (Submissions(plan[0..n]) + if n < |plan| then [Submission(plan[n].files, false)] else [])[j].files == plan[j].files
  {
    SubmissionsAt(plan[0..n]);
  }

  lemma {:induction false} SubmissionsAt(batches: seq<Batch>)
    ensures |Submissions(batches)| == |batches| && forall k :: 0 <= k < |batches| ==> Submissions(batches)[k] == Submission(batches[k].files, true)
    decreases |batches|
  {
    if batches != [] { SubmissionsAt(batches[1..]); }
  }

  lemma {:induction false} FileOfBatch(batches: seq<Batch>, k: nat, p: Path)
    requires k < |batches| && p in batches[k].files
    ensures p in Files(batches)
    decreases k
  {
    if k > 0 { FileOfBatch(batches[1..], k - 1, p); }
  }
}
