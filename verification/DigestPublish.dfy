/** Publication of a digest and its review sample: a directory built aside and
    renamed into place, a symlink swap, then digest.md, then its sidecar, then
    the clean-up and the recorded sample ids, with a kill possible before every
    file-system operation.

    Hashes are the bytes they are taken of, so a sample directory is named by its
    digest.  Removing a tree is two operations: a kill between them leaves any
    part of its files (`keep`). */
module DigestPublish {
  import opened Common
  import DigestTable

  type Dir = map<Id, string>

  datatype Name = Versioned(digest: string) | Temp(digest: string, pid: nat) | Stale(digest: string, pid: nat)

  /** `sample`: absent, a directory of the older layout, or a symlink. */
  datatype Link = NoLink | PlainDir | To(name: Name)

  /** `rows` are the progress rows in the order the digest shows them, `captures` every
      meeting's own dry-run.txt, which other batches and a single signing write too.
      `placed` is history only: the sample each digest was last published with. */
  datatype World = World(dirs: map<Name, Dir>, link: Link, digest: Option<string>, sidecar: Option<string>,
                         sampleIds: seq<Id>, captures: map<Id, string>, rows: seq<DigestTable.Entry>, life: nat,
                         placed: map<string, Dir>)

  type Header = h: DigestTable.Header | |h.columns| >= 1 witness DigestTable.Header("", (ok: nat, failed: nat) => "", "", ["id"])

  /** One run: how it words the digest, its seeded choice, its pid, the order in which
      the clean-up meets the directories, and what a kill leaves of a tree. */
  datatype Run = Run(header: Header, pick: set<Id> -> seq<Id>, pid: nat, order: seq<Name>, keep: Name -> set<Id>)

  /** What a run works with: the digest it prints and its picks are settled by the rows
      and by which captures are there. */
  datatype Job = Job(digest: string, picks: seq<Id>, pid: nat, order: seq<Name>, keep: Name -> set<Id>)

  function Printed(run: Run, w: World): string {
    DigestTable.Digest(run.header, w.rows)
  }

  /** Exit-0 meetings whose capture is there. */
  function Eligible(w: World): set<Id> {
    set e | e in w.rows && e.dry.Some? && e.dry.value.exit == Some(0) && e.id in w.captures :: e.id
  }

  function JobOf(run: Run, w: World): Job {
    Job(Printed(run, w), run.pick(Eligible(w)), run.pid, run.order, run.keep)
  }

  // ------------------------------------------------------------ file-system operations

  function Step(w: World, after: World): World {
    if w.life == 0 then w else after.(life := w.life - 1)
  }

  function PutDir(w: World, name: Name, dir: Dir): World {
    Step(w, w.(dirs := w.dirs[name := dir]))
  }

  function DropDir(w: World, name: Name): World {
    Step(w, w.(dirs := w.dirs - {name}))
  }

  function Part(dir: Dir, keep: set<Id>): Dir {
    map id | id in dir && id in keep :: dir[id]
  }

  function RmTree(w: World, name: Name, job: Job): World {
    if name !in w.dirs then w else DropDir(PutDir(w, name, Part(w.dirs[name], job.keep(name))), name)
  }

  function Rename(w: World, from: Name, to: Name): World {
    if from !in w.dirs then w else Step(w, w.(dirs := (w.dirs - {from})[to := w.dirs[from]]))
  }

  /** Picks whose capture is gone are passed over. */
  function WriteFiles(w: World, name: Name, ids: seq<Id>): World
    decreases |ids|
  {
    if ids == [] then w
    else if ids[0] !in w.captures then WriteFiles(w, name, ids[1..])
    else
      var dir := if name in w.dirs then w.dirs[name] else map[];
      WriteFiles(PutDir(w, name, dir[ids[0] := w.captures[ids[0]]]), name, ids[1..])
  }

  // ------------------------------------------------------------ one publication

  function Sample(job: Job, w: World): Dir {
    map id | id in job.picks && id in w.captures :: w.captures[id]
  }

  function Build(job: Job, w: World): World {
    var tmp := Temp(job.digest, job.pid);
    WriteFiles(PutDir(RmTree(w, tmp, job), tmp, map[]), tmp, job.picks)
  }

  /** Only a built directory is ever renamed to the published name. */
  function Install(job: Job, w: World): World {
    var w' := Rename(w, Temp(job.digest, job.pid), Versioned(job.digest));
    if w.life == 0 then w else w'.(placed := w'.placed[job.digest := Sample(job, w)])
  }

  function PlaceSample(job: Job, w: World): World {
    var v := Versioned(job.digest);
    if v in w.dirs && w.dirs[v] == Sample(job, w) then
      if w.life == 0 then w else w.(placed := w.placed[job.digest := Sample(job, w)])
    else if v in w.dirs then
      var aside := Stale(job.digest, job.pid);
      RmTree(Install(job, Rename(RmTree(Build(job, w), aside, job), v, aside)), aside, job)
    else
      Install(job, Build(job, w))
  }

  function SwapLink(job: Job, w: World): World {
    var w1 := if w.link.PlainDir? then Step(w, w.(link := NoLink)) else w;
    Step(w1, w1.(link := To(Versioned(job.digest))))
  }

  /** digest.md, then its sidecar. */
  function Announce(job: Job, w: World): World {
    var w1 := Step(w, w.(digest := Some(job.digest)));
    Step(w1, w1.(sidecar := Some(job.digest)))
  }

  function Record(job: Job, w: World): World {
    Step(w, w.(sampleIds := job.picks))
  }

  function Prune(job: Job, order: seq<Name>, w: World): World
    decreases |order|
  {
    if order == [] then w
    else Prune(job, order[1..], if order[0] == Versioned(job.digest) then w else RmTree(w, order[0], job))
  }

  function Publish(job: Job, w: World): World {
    Record(job, Prune(job, job.order, Announce(job, SwapLink(job, PlaceSample(job, w)))))
  }

  function Write(run: Run, w: World): World {
    Publish(JobOf(run, w), w)
  }

  // ------------------------------------------------------------ the same, step by step

  class Publisher {
    var dirs: map<Name, Dir>
    var link: Link
    var digest: Option<string>
    var sidecar: Option<string>
    var sampleIds: seq<Id>
    const captures: map<Id, string>
    const rows: seq<DigestTable.Entry>
    var life: nat
    var placed: map<string, Dir>

    constructor (w: World)
      ensures State() == w
    {
      dirs, link, digest, sidecar, sampleIds := w.dirs, w.link, w.digest, w.sidecar, w.sampleIds;
      captures, rows, life, placed := w.captures, w.rows, w.life, w.placed;
    }

    function State(): World
      reads this
    {
      World(dirs, link, digest, sidecar, sampleIds, captures, rows, life, placed)
    }

    method Put(name: Name, dir: Dir)
      modifies this
      ensures State() == old(PutDir(State(), name, dir))
    {
      if life > 0 { dirs, life := dirs[name := dir], life - 1; }
    }

    method Remove(name: Name, job: Job)
      modifies this
      ensures State() == old(RmTree(State(), name, job))
    {
      if name in dirs {
        Put(name, Part(dirs[name], job.keep(name)));
        if life > 0 { dirs, life := dirs - {name}, life - 1; }
      }
    }

    method Replace(from: Name, to: Name)
      modifies this
      ensures State() == old(Rename(State(), from, to))
    {
      if from in dirs && life > 0 {
        var dir := dirs[from];
        dirs, life := (dirs - {from})[to := dir], life - 1;
      }
    }

    method BuildSample(job: Job)
      modifies this
      ensures State() == old(Build(job, State()))
    {
      var tmp := Temp(job.digest, job.pid);
      Remove(tmp, job);
      Put(tmp, map[]);
      ghost var before := State();
      for i := 0 to |job.picks|
        invariant WriteFiles(State(), tmp, job.picks[i..]) == WriteFiles(before, tmp, job.picks)
      {
        var id := job.picks[i];
        assert job.picks[i..][1..] == job.picks[i + 1..];
        if id !in captures { continue; }
        var dir := if tmp in dirs then dirs[tmp] else map[];
        Put(tmp, dir[id := captures[id]]);
      }
    }

    method InstallSample(job: Job)
      modifies this
      ensures State() == old(Install(job, State()))
    {
      var alive := life > 0;
      Replace(Temp(job.digest, job.pid), Versioned(job.digest));
      if alive { placed := placed[job.digest := Sample(job, State())]; }
    }

    method PlaceReviewSample(job: Job)
      modifies this
      ensures State() == old(PlaceSample(job, State()))
    {
      var v, aside := Versioned(job.digest), Stale(job.digest, job.pid);
      var published := v in dirs;
      if published && dirs[v] == Sample(job, State()) {
        if life > 0 { placed := placed[job.digest := Sample(job, State())]; }
      } else {
        BuildSample(job);
        if published {
          Remove(aside, job);
          Replace(v, aside);
          InstallSample(job);
          Remove(aside, job);
        } else {
          InstallSample(job);
        }
      }
    }

    method SwapSymlink(job: Job)
      modifies this
      ensures State() == old(SwapLink(job, State()))
    {
      if link.PlainDir? && life > 0 { link, life := NoLink, life - 1; }
      if life > 0 { link, life := To(Versioned(job.digest)), life - 1; }
    }

    method PruneOld(job: Job)
      modifies this
      ensures State() == old(Prune(job, job.order, State()))
    {
      ghost var before := State();
      for i := 0 to |job.order|
        invariant Prune(job, job.order[i..], State()) == Prune(job, job.order, before)
      {
        assert job.order[i..][1..] == job.order[i + 1..];
        if job.order[i] != Versioned(job.digest) { Remove(job.order[i], job); }
      }
    }

    method WriteDigestFiles(job: Job)
      modifies this
      ensures State() == old(Announce(job, State()))
    {
      if life > 0 { digest, life := Some(job.digest), life - 1; }
      if life > 0 { sidecar, life := Some(job.digest), life - 1; }
    }

    method SaveSampleIds(job: Job)
      modifies this
      ensures State() == old(Record(job, State()))
    {
      if life > 0 { sampleIds, life := job.picks, life - 1; }
    }

    method WriteDigest(run: Run)
      modifies this
      ensures State() == old(Write(run, State()))
    {
      var job := JobOf(run, State());
      PlaceReviewSample(job);
      SwapSymlink(job);
      WriteDigestFiles(job);
      PruneOld(job);
      SaveSampleIds(job);
    }
  }
}
