/** What a kill at any point of a publication leaves, what the signer makes of it, and
    exactly when a digest can be seen without its sample.  Between publications the
    progress rows and the captures may change in any way. */
module DigestPublishSafety {
  import opened Common
  import BatchSign
  import DigestTable
  import opened DigestPublish

  // ------------------------------------------------------------ invariant of every crash state

  /** A directory named by the recorded digest holds exactly the sample, byte for byte,
      that was placed for that digest last. */
  ghost predicate Whole(w: World) {
    w.sidecar.Some? && Versioned(w.sidecar.value) in w.dirs ==>
      w.sidecar.value in w.placed && w.dirs[Versioned(w.sidecar.value)] == w.placed[w.sidecar.value]
  }

  ghost predicate SameInputs(w: World, w': World) {
    w'.captures == w.captures && w'.rows == w.rows && w'.life <= w.life
  }

  /** `w'` differs from `w` at most in directories not published under any digest. */
  ghost predicate OnlyAside(w: World, w': World) {
    && SameInputs(w, w') && w' == w.(dirs := w'.dirs, life := w'.life)
    && forall d :: (Versioned(d) in w'.dirs <==> Versioned(d) in w.dirs) &&
                   (Versioned(d) in w.dirs ==> w'.dirs[Versioned(d)] == w.dirs[Versioned(d)])
  }

  lemma RmTreeAside(w: World, name: Name, job: Job)
    requires !name.Versioned?
    ensures OnlyAside(w, RmTree(w, name, job))
    ensures RmTree(w, name, job).life > 0 ==> name !in RmTree(w, name, job).dirs
    ensures RmTree(w, name, job).life + 2 >= w.life
  {}

  lemma RmTreeSpares(w: World, name: Name, other: Name, job: Job)
    requires name != other
    ensures var w' := RmTree(w, name, job);
      (other in w'.dirs <==> other in w.dirs) && (other in w.dirs ==> w'.dirs[other] == w.dirs[other])
  {}

  /** What a file by file copy of the picks adds. */
  ghost predicate Copied(w: World, w': World, name: Name, ids: seq<Id>)
    requires name in w.dirs && name in w'.dirs
  {
    forall id :: (id in w'.dirs[name] <==> id in w.dirs[name] || (id in ids && id in w.captures)) &&
      (id in w'.dirs[name] ==> w'.dirs[name][id] == if id in ids && id in w.captures then w.captures[id] else w.dirs[name][id])
  }

  lemma {:induction false} WriteFilesCopy(w: World, name: Name, ids: seq<Id>)
    requires !name.Versioned?
    ensures var w' := WriteFiles(w, name, ids);
      OnlyAside(w, w') && (name in w.dirs ==> name in w'.dirs && (w'.life > 0 ==> Copied(w, w', name, ids)))
    decreases |ids|
  {
    if ids != [] {
      assert ids == [ids[0]] + ids[1..];
      if ids[0] !in w.captures {
        WriteFilesCopy(w, name, ids[1..]);
      } else {
        var dir := if name in w.dirs then w.dirs[name] else map[];
        var w1 := PutDir(w, name, dir[ids[0] := w.captures[ids[0]]]);
        assert OnlyAside(w, w1);
        WriteFilesCopy(w1, name, ids[1..]);
      }
    }
  }

  lemma AsideTwice(w: World, w1: World, w2: World)
    requires OnlyAside(w, w1) && OnlyAside(w1, w2)
    ensures OnlyAside(w, w2)
  {}

  lemma EmptyDirAside(w: World, name: Name)
    requires !name.Versioned?
    ensures OnlyAside(w, PutDir(w, name, map[]))
    ensures var w' := PutDir(w, name, map[]); w'.life > 0 ==> name in w'.dirs && w'.dirs[name] == map[]
  {}

  lemma BuildIsSample(job: Job, w: World)
    ensures var w' := Build(job, w); var tmp := Temp(job.digest, job.pid);
      OnlyAside(w, w') && (w'.life > 0 ==> tmp in w'.dirs && w'.dirs[tmp] == Sample(job, w))
  {
    var tmp := Temp(job.digest, job.pid);
    var w1 := RmTree(w, tmp, job);
    var w2 := PutDir(w1, tmp, map[]);
    RmTreeAside(w, tmp, job);
    EmptyDirAside(w1, tmp);
    AsideTwice(w, w1, w2);
    assert SameInputs(w, w2);
    hide RmTree, PutDir, OnlyAside, WriteFiles;
    FilesAreSample(job, w, w2, tmp);
    AsideTwice(w, w2, WriteFiles(w2, tmp, job.picks));
  }

  lemma FilesAreSample(job: Job, w: World, w2: World, tmp: Name)
    requires !tmp.Versioned? && SameInputs(w, w2) && (w2.life > 0 ==> tmp in w2.dirs && w2.dirs[tmp] == map[])
    ensures var w' := WriteFiles(w2, tmp, job.picks);
      OnlyAside(w2, w') && (w'.life > 0 ==> tmp in w'.dirs && w'.dirs[tmp] == Sample(job, w))
  {
    WriteFilesCopy(w2, tmp, job.picks);
    hide WriteFiles;
  }

  /** The sample is in place under its digest. */
  ghost predicate Placed(job: Job, sample: Dir, w: World) {
    var v := Versioned(job.digest);
    v in w.dirs && w.dirs[v] == sample && job.digest in w.placed && w.placed[job.digest] == sample
  }

  /** `w'` is `w` with a sample possibly placed, or in the middle of placing one. */
  ghost predicate PlacesOnly(w: World, w': World) {
    SameInputs(w, w') && w' == w.(dirs := w'.dirs, life := w'.life, placed := w'.placed) && Whole(w')
  }

  lemma AsideKeeps(w: World, w': World)
    requires OnlyAside(w, w') && Whole(w)
    ensures PlacesOnly(w, w')
  {}

  lemma InstallPlaces(job: Job, sample: Dir, w: World)
    requires Whole(w) && sample == Sample(job, w)
    requires w.life > 0 ==> Temp(job.digest, job.pid) in w.dirs && w.dirs[Temp(job.digest, job.pid)] == sample
    ensures var w' := Install(job, w); PlacesOnly(w, w') && (w.life > 0 ==> Placed(job, sample, w'))
  {}

  lemma MoveAsideKeeps(job: Job, w: World)
    requires Whole(w)
    ensures var v, aside, tmp := Versioned(job.digest), Stale(job.digest, job.pid), Temp(job.digest, job.pid);
      var w' := Rename(w, v, aside);
      PlacesOnly(w, w') && (tmp in w.dirs ==> tmp in w'.dirs && w'.dirs[tmp] == w.dirs[tmp])
  {}

  lemma PlaceSampleKeeps(job: Job, w: World)
    requires Whole(w)
    ensures PlacesOnly(w, PlaceSample(job, w))
    ensures PlaceSample(job, w).life > 0 ==> Placed(job, Sample(job, w), PlaceSample(job, w))
  {
    var v := Versioned(job.digest);
    var sample := Sample(job, w);
    if !(v in w.dirs && w.dirs[v] == sample) {
      BuildIsSample(job, w);
      var w1 := Build(job, w);
      AsideKeeps(w, w1);
      assert Sample(job, w1) == sample;
      hide Build, Whole;
      if v in w.dirs { ReplacementPlaces(job, sample, w1); } else { InstallPlaces(job, sample, w1); }
    }
  }

  /** Replacing a published directory: the old one is moved aside, the new one moved in. */
  lemma ReplacementPlaces(job: Job, sample: Dir, w: World)
    requires Whole(w) && sample == Sample(job, w)
    requires w.life > 0 ==> Temp(job.digest, job.pid) in w.dirs && w.dirs[Temp(job.digest, job.pid)] == sample
    ensures var v, aside := Versioned(job.digest), Stale(job.digest, job.pid);
      var w' := RmTree(Install(job, Rename(RmTree(w, aside, job), v, aside)), aside, job);
      PlacesOnly(w, w') && (w'.life > 0 ==> Placed(job, sample, w'))
  {
    var v, aside, tmp := Versioned(job.digest), Stale(job.digest, job.pid), Temp(job.digest, job.pid);
    RmTreeAside(w, aside, job);
    RmTreeSpares(w, aside, tmp, job);
    var w2 := RmTree(w, aside, job);
    AsideKeeps(w, w2);
    MoveAsideKeeps(job, w2);
    var w3 := Rename(w2, v, aside);
    hide RmTree, Rename, Whole;
    InstallPlaces(job, sample, w3);
    var w4 := Install(job, w3);
    hide Install;
    RmTreeAside(w4, aside, job);
    AsideKeeps(w4, RmTree(w4, aside, job));
  }

  /** The directory of this digest stays as it is. */
  ghost predicate KeepsDir(job: Job, w: World, w': World) {
    Versioned(job.digest) in w.dirs ==>
      Versioned(job.digest) in w'.dirs && w'.dirs[Versioned(job.digest)] == w.dirs[Versioned(job.digest)]
  }

  lemma {:induction false} PruneKeeps(job: Job, order: seq<Name>, w: World)
    ensures var w' := Prune(job, order, w);
      && SameInputs(w, w') && w' == w.(dirs := w'.dirs, life := w'.life) && KeepsDir(job, w, w')
      && (w.life == 0 ==> w' == w)
      && (Whole(w) && (w.life > 0 ==> w.sidecar == Some(job.digest)) ==> Whole(w'))
    decreases |order|
  {
    if order != [] {
      var next := if order[0] == Versioned(job.digest) then w else RmTree(w, order[0], job);
      if order[0] != Versioned(job.digest) { RmTreeOther(w, order[0], job); }
      hide RmTree, Whole;
      PruneKeeps(job, order[1..], next);
    }
  }

  lemma RmTreeOther(w: World, name: Name, job: Job)
    requires name != Versioned(job.digest)
    ensures var w' := RmTree(w, name, job);
      && SameInputs(w, w') && w' == w.(dirs := w'.dirs, life := w'.life) && KeepsDir(job, w, w') && (w.life == 0 ==> w' == w)
      && (Whole(w) && (w.life > 0 ==> w.sidecar == Some(job.digest)) ==> Whole(w'))
  {
    if w.life == 0 && name in w.dirs { assert w.dirs == w.dirs; }
  }

  lemma LinkKeeps(job: Job, w: World)
    requires Whole(w)
    ensures var w' := SwapLink(job, w);
      && SameInputs(w, w') && Whole(w') && w' == w.(link := w'.link, life := w'.life) && (w.life == 0 ==> w' == w)
      && (w'.life > 0 ==> w'.link == To(Versioned(job.digest)))
  {}

  lemma LinkAndAnnounceKeep(job: Job, sample: Dir, w: World)
    requires Whole(w) && (w.life > 0 ==> Placed(job, sample, w))
    ensures var w' := Announce(job, SwapLink(job, w));
      && SameInputs(w, w') && Whole(w') && w'.dirs == w.dirs && w'.placed == w.placed && (w.life == 0 ==> w' == w)
      && (w'.life > 0 ==> w'.link == To(Versioned(job.digest)) && w'.digest == w'.sidecar == Some(job.digest))
  {
    LinkKeeps(job, w);
    hide SwapLink;
  }

  /** One publication, killed before any file-system operation. */
  lemma PublishKeeps(job: Job, w: World)
    requires Whole(w)
    ensures var w' := Publish(job, w); var v := Versioned(job.digest);
      && SameInputs(w, w') && Whole(w')
      && (w'.life > 0 ==> v in w'.dirs && w'.dirs[v] == Sample(job, w) && w'.link == To(v)
                          && w'.digest == w'.sidecar == Some(job.digest) && w'.sampleIds == job.picks)
  {
    PlaceSampleKeeps(job, w);
    var w1 := PlaceSample(job, w);
    LinkAndAnnounceKeep(job, Sample(job, w), w1);
    var w2 := Announce(job, SwapLink(job, w1));
    PruneKeeps(job, job.order, w2);
    hide PlaceSample, SwapLink, Announce, Prune, Sample;
  }

  // ------------------------------------------------------------ campaigns

  datatype Command =
    | Publication(run: Run, life: nat)
    | Change(rows: seq<DigestTable.Entry>, captures: map<Id, string>)

  function Exec(w: World, c: Command): World {
    match c
    case Publication(run, life) => Write(run, w.(life := life))
    case Change(rows, captures) => w.(rows := rows, captures := captures)
  }

  function Campaign(w: World, cmds: seq<Command>): World
    decreases |cmds|
  {
    if cmds == [] then w else Campaign(Exec(w, cmds[0]), cmds[1..])
  }

  const Fresh: World := World(map[], NoLink, None, None, [], map[], [], 0, map[])

  lemma {:induction false} CampaignKeeps(w: World, cmds: seq<Command>)
    requires Whole(w)
    ensures Whole(Campaign(w, cmds))
    decreases |cmds|
  {
    if cmds != [] {
      match cmds[0] {
        case Publication(run, life) => PublishKeeps(JobOf(run, w.(life := life)), w.(life := life));
        case Change(rows, captures) =>
      }
      CampaignKeeps(Exec(w, cmds[0]), cmds[1..]);
    }
  }

  // ------------------------------------------------------------ what the signer sees

  /** The files behind the symlink; none when it dangles. */
  function Listing(w: World): Dir {
    if w.link.To? && w.link.name in w.dirs then w.dirs[w.link.name] else map[]
  }

  function LinkDigest(w: World): Option<string> {
    if w.link.To? && w.link.name.Versioned? then Some(w.link.name.digest) else None
  }

  /** digest.md, its sidecar and the link all name this digest. */
  ghost predicate Announced(w: World, digest: string) {
    w.digest == w.sidecar == Some(digest) && LinkDigest(w) == Some(digest)
  }

  /** A directory named by the recorded digest is never seen half filled: in every crash
      state it is, byte for byte, the sample last placed for that digest. */
  lemma PublishedSampleIsWhole(cmds: seq<Command>, digest: string)
    requires var w := Campaign(Fresh, cmds); w.sidecar == Some(digest) && Versioned(digest) in w.dirs
    ensures var w := Campaign(Fresh, cmds); digest in w.placed && w.dirs[Versioned(digest)] == w.placed[digest]
  {
    CampaignKeeps(Fresh, cmds);
  }

  /** No capture of the sample has changed or gone since the sample was placed. */
  ghost predicate Undrifted(sample: Dir, captures: map<Id, string>) {
    forall id :: id in sample ==> id in captures && captures[id] == sample[id]
  }

  /** In every crash state with an announced digest and something to sign: the signer's
      sample checks pass exactly when the directory is there, the recorded ids are those
      of the sample placed for the digest, these are candidates in the contracted number,
      and none of their captures has drifted since. */
  lemma AcceptedSampleIsComplete(cmds: seq<Command>, digest: string, candidates: seq<Id>)
    requires Announced(Campaign(Fresh, cmds), digest) && candidates != []
    ensures var w := Campaign(Fresh, cmds);
      BatchSign.SampleCurrent(LinkDigest(w), digest, Listing(w), w.sampleIds, w.captures, candidates) <==>
        && Versioned(digest) in w.dirs && digest in w.placed
        && multiset(w.sampleIds) == multiset(w.placed[digest].Keys)
        && (forall id :: id in w.placed[digest] ==> id in candidates)
        && |w.sampleIds| == (if |candidates| < 10 then |candidates| else 10)
        && Undrifted(w.placed[digest], w.captures)
  {
    CampaignKeeps(Fresh, cmds);
    var w := Campaign(Fresh, cmds);
    if Versioned(digest) in w.dirs {
      assert Listing(w) == w.placed[digest];
      if multiset(w.sampleIds) == multiset(w.placed[digest].Keys) && w.placed[digest].Keys == {} { assert |multiset(w.sampleIds)| == 0; }
    } else {
      SwapWindowIsRefused(w, digest, candidates);
    }
  }

  /** With the directory gone the signer refuses whenever there is anything to sign. */
  lemma SwapWindowIsRefused(w: World, digest: string, candidates: seq<Id>)
    requires Versioned(digest) !in w.dirs && candidates != []
    ensures !BatchSign.SampleCurrent(LinkDigest(w), digest, Listing(w), w.sampleIds, w.captures, candidates)
  {}

  /** The seeded choice: up to ten of the eligible ids, each once. */
  ghost predicate Samples(pick: set<Id> -> seq<Id>) {
    forall s :: Distinct(pick(s)) && (forall id :: id in pick(s) ==> id in s) && |pick(s)| == if |s| < 10 then |s| else 10
  }

  ghost predicate Distinct(ids: seq<Id>) {
    forall i, j :: 0 <= i < j < |ids| ==> ids[i] != ids[j]
  }

  lemma {:induction false} PicksAreTheirSet(picks: seq<Id>)
    requires Distinct(picks)
    ensures multiset(picks) == multiset(set id | id in picks)
    decreases |picks|
  {
    if picks != [] {
      var x, rest := picks[0], picks[1..];
      assert x !in rest && Distinct(rest);
      PicksAreTheirSet(rest);
      hide Distinct;
      OneMoreMember(x, rest);
      assert picks == [x] + rest;
    }
  }

  lemma OneMoreMember(x: Id, rest: seq<Id>)
    requires x !in rest
    ensures multiset(set id | id in [x] + rest) == multiset{x} + multiset(set id | id in rest)
    ensures multiset([x] + rest) == multiset{x} + multiset(rest)
  {
    assert (set id | id in [x] + rest) == {x} + set id | id in rest;
  }

  lemma PicksAreSampled(run: Run, w: World)
    requires Samples(run.pick)
    ensures var job := JobOf(run, w); Distinct(job.picks) && Sample(job, w).Keys == set id | id in job.picks
    ensures |JobOf(run, w).picks| == if |Eligible(w)| < 10 then |Eligible(w)| else 10
  {
    var job := JobOf(run, w);
    assert forall id :: id in job.picks ==> id in Eligible(w);
  }

  /** A publication that is not killed, from any state of the directories and captures,
      passes every sample check of the signer exactly when its picks are candidates in
      the contracted number. */
  lemma FinishedPublicationIsAcceptedIff(run: Run, w: World, candidates: seq<Id>)
    requires Samples(run.pick) && Whole(w) && Write(run, w).life > 0
    ensures var w' := Write(run, w); var picks := JobOf(run, w).picks;
      BatchSign.SampleCurrent(LinkDigest(w'), Printed(run, w), Listing(w'), w'.sampleIds, w'.captures, candidates) <==>
        (forall id :: id in picks ==> id in candidates) && |picks| == if |candidates| < 10 then |candidates| else 10
  {
    var job, w' := JobOf(run, w), Write(run, w);
    PublishKeeps(job, w);
    PicksAreSampled(run, w);
    PicksAreTheirSet(job.picks);
    hide Publish, Eligible, Samples, Distinct;
    SampleCurrentIff(job.digest, Sample(job, w), job.picks, w.captures, candidates);
    assert Listing(w') == Sample(job, w);
  }

  lemma SampleCurrentIff(digest: string, listing: Dir, picks: seq<Id>, captures: map<Id, string>, candidates: seq<Id>)
    requires listing.Keys == (set id | id in picks) && multiset(picks) == multiset(set id | id in picks) && Undrifted(listing, captures)
    ensures BatchSign.SampleCurrent(Some(digest), digest, listing, picks, captures, candidates) <==>
      (forall id :: id in picks ==> id in candidates) && |picks| == if |candidates| < 10 then |candidates| else 10
  {
    assert forall id :: id in picks <==> id in listing.Keys;
    if picks != [] { assert picks[0] in listing.Keys; }
  }

  // ------------------------------------------------------------ a digest without its sample

  /** The digest is announced and linked, yet its directory is gone. */
  ghost predicate InSwapWindow(w: World, digest: string) {
    Announced(w, digest) && Versioned(digest) !in w.dirs
  }

  /** The directory of the digest is there and is the sample the run would place. */
  predicate UpToDate(job: Job, w: World) {
    Versioned(job.digest) in w.dirs && w.dirs[Versioned(job.digest)] == Sample(job, w)
  }

  lemma NothingAfterDeath(job: Job, w: World)
    requires w.life == 0
    ensures Record(job, Prune(job, job.order, Announce(job, SwapLink(job, w)))) == w
  {
    assert Announce(job, SwapLink(job, w)) == w;
    PruneKeeps(job, job.order, w);
  }

  /** A run in whose course the window opens found the digest announced and its
      directory not up to date. */
  lemma WindowNeedsStale(job: Job, w: World)
    requires InSwapWindow(Publish(job, w), job.digest)
    ensures Announced(w, job.digest) && !UpToDate(job, w)
  {
    var w1 := PlaceSample(job, w);
    PlaceSampleShape(job, w);
    if w1.life == 0 {
      NothingAfterDeath(job, w1);
    } else {
      LaterStepsKeepDir(job, w1);
    }
    if UpToDate(job, w) { LaterStepsKeepDir(job, w1); }
  }

  lemma LaterStepsKeepDir(job: Job, w: World)
    ensures KeepsDir(job, w, Record(job, Prune(job, job.order, Announce(job, SwapLink(job, w)))))
  {
    hide *;
    AnnouncingKeepsDirs(job, w);
    PruneThenRecord(job, Announce(job, SwapLink(job, w)));
    SameDirsKept(job, w, Announce(job, SwapLink(job, w)), Record(job, Prune(job, job.order, Announce(job, SwapLink(job, w)))));
  }

  lemma AnnouncingKeepsDirs(job: Job, w: World)
    ensures Announce(job, SwapLink(job, w)).dirs == w.dirs
  {
    hide Announce, SwapLink;
    AnnounceKeepsDirs(job, SwapLink(job, w));
    LinkingKeepsDirs(job, w);
  }

  lemma AnnounceKeepsDirs(job: Job, w: World)
    ensures Announce(job, w).dirs == w.dirs
  {}

  lemma LinkingKeepsDirs(job: Job, w: World)
    ensures SwapLink(job, w).dirs == w.dirs
  {}

  lemma PruneThenRecord(job: Job, w: World)
    ensures KeepsDir(job, w, Record(job, Prune(job, job.order, w)))
  {
    PruneKeeps(job, job.order, w);
    hide Prune;
  }

  lemma SameDirsKept(job: Job, w: World, w1: World, w2: World)
    requires w1.dirs == w.dirs && KeepsDir(job, w1, w2)
    ensures KeepsDir(job, w, w2)
  {}

  /** Placing touches neither link nor digest nor sidecar; alive after it, the sample is there. */
  lemma PlaceSampleShape(job: Job, w: World)
    ensures var w' := PlaceSample(job, w);
      && w' == w.(dirs := w'.dirs, life := w'.life, placed := w'.placed)
      && (w'.life > 0 ==> Versioned(job.digest) in w'.dirs)
      && (UpToDate(job, w) ==> w'.dirs == w.dirs)
  {
    BuildIsSample(job, w);
    InstallShape(job, Build(job, w));
    ReplacementShape(job, Build(job, w));
    hide Build, Install, RmTree, Rename, Sample;
  }

  lemma InstallShape(job: Job, w: World)
    ensures var w' := Install(job, w);
      && w' == w.(dirs := w'.dirs, life := w'.life, placed := w'.placed) && w'.life <= w.life <= w'.life + 1
      && (w.life > 0 && Temp(job.digest, job.pid) in w.dirs ==> Versioned(job.digest) in w'.dirs)
  {}

  lemma ReplacementShape(job: Job, w: World)
    ensures var v, aside := Versioned(job.digest), Stale(job.digest, job.pid);
      var w' := RmTree(Install(job, Rename(RmTree(w, aside, job), v, aside)), aside, job);
      && w' == w.(dirs := w'.dirs, life := w'.life, placed := w'.placed) && w'.life <= w.life <= w'.life + 6
      && (w'.life > 0 && Temp(job.digest, job.pid) in w.dirs ==> v in w'.dirs)
  {
    var v, aside, tmp := Versioned(job.digest), Stale(job.digest, job.pid), Temp(job.digest, job.pid);
    var w2 := RmTree(w, aside, job);
    RmTreeAside(w, aside, job);
    RmTreeSpares(w, aside, tmp, job);
    var w3 := Rename(w2, v, aside);
    RenameShape(w2, v, aside, tmp);
    InstallShape(job, w3);
    var w4 := Install(job, w3);
    hide RmTree, Rename, Install;
    RmTreeAside(w4, aside, job);
  }

  lemma RenameShape(w: World, from: Name, to: Name, other: Name)
    requires other != from && other != to
    ensures var w' := Rename(w, from, to);
      w' == w.(dirs := w'.dirs, life := w'.life) && w'.life <= w.life <= w'.life + 1 && (other in w.dirs ==> other in w'.dirs)
  {}

  // ------------------------------------------------------------ what a run costs

  function Minus(a: nat, b: nat): nat { if a < b then 0 else a - b }

  function RmCost(w: World, name: Name): nat { if name in w.dirs then 2 else 0 }

  function CopyCost(captures: map<Id, string>, ids: seq<Id>): nat {
    if ids == [] then 0 else (if ids[0] in captures then 1 else 0) + CopyCost(captures, ids[1..])
  }

  lemma {:induction false} WriteFilesLife(w: World, name: Name, ids: seq<Id>)
    ensures WriteFiles(w, name, ids).life == Minus(w.life, CopyCost(w.captures, ids))
    decreases |ids|
  {
    if ids != [] {
      if ids[0] !in w.captures {
        WriteFilesLife(w, name, ids[1..]);
      } else {
        var dir := if name in w.dirs then w.dirs[name] else map[];
        WriteFilesLife(PutDir(w, name, dir[ids[0] := w.captures[ids[0]]]), name, ids[1..]);
      }
    }
  }

  function BuildCost(job: Job, w: World): nat {
    RmCost(w, Temp(job.digest, job.pid)) + 1 + CopyCost(w.captures, job.picks)
  }

  lemma BuildLife(job: Job, w: World)
    ensures Build(job, w).life == Minus(w.life, BuildCost(job, w))
  {
    var tmp := Temp(job.digest, job.pid);
    WriteFilesLife(PutDir(RmTree(w, tmp, job), tmp, map[]), tmp, job.picks);
    hide WriteFiles;
  }

  /** A build leaves every directory but its own. */
  lemma BuildSpares(job: Job, w: World, name: Name)
    requires name != Temp(job.digest, job.pid)
    ensures name in Build(job, w).dirs <==> name in w.dirs
  {
    var tmp := Temp(job.digest, job.pid);
    WriteFilesSpare(PutDir(RmTree(w, tmp, job), tmp, map[]), tmp, job.picks, name);
    hide WriteFiles;
  }

  lemma {:induction false} WriteFilesSpare(w: World, name: Name, ids: seq<Id>, other: Name)
    requires other != name
    ensures other in WriteFiles(w, name, ids).dirs <==> other in w.dirs
    decreases |ids|
  {
    if ids != [] {
      if ids[0] !in w.captures {
        WriteFilesSpare(w, name, ids[1..], other);
      } else {
        var dir := if name in w.dirs then w.dirs[name] else map[];
        WriteFilesSpare(PutDir(w, name, dir[ids[0] := w.captures[ids[0]]]), name, ids[1..], other);
      }
    }
  }

  /** Everything up to and including the rename that takes the old directory away. */
  function LifeToWindow(job: Job, w: World): nat {
    if Versioned(job.digest) !in w.dirs then 0
    else BuildCost(job, w) + RmCost(w, Stale(job.digest, job.pid)) + 1
  }

  /** A process that dies right after that rename. */
  lemma DeathAfterRename(job: Job, w: World)
    requires Versioned(job.digest) in w.dirs && !UpToDate(job, w) && w.life == LifeToWindow(job, w)
    ensures var w' := PlaceSample(job, w); w'.life == 0 && Versioned(job.digest) !in w'.dirs
  {
    var v, aside := Versioned(job.digest), Stale(job.digest, job.pid);
    var w1 := Build(job, w);
    BuildLife(job, w);
    BuildSpares(job, w, v);
    BuildSpares(job, w, aside);
    var w2 := RmTree(w1, aside, job);
    RmTreeSpares(w1, aside, v, job);
    assert w2.life == 1;
    var w3 := Rename(w2, v, aside);
    assert w3.life == 0 && v !in w3.dirs;
    hide Build, Sample;
  }

  /** Dying there, or before anything when the directory is already gone, leaves the window open. */
  lemma StaleOpensWindow(job: Job, w: World)
    requires Announced(w, job.digest) && !UpToDate(job, w) && w.life == LifeToWindow(job, w)
    ensures InSwapWindow(Publish(job, w), job.digest)
  {
    var w1 := PlaceSample(job, w);
    PlaceSampleShape(job, w);
    if Versioned(job.digest) in w.dirs { DeathAfterRename(job, w); } else { DeadBuild(job, w); }
    NothingAfterDeath(job, w1);
    hide PlaceSample, Record, Prune, Announce, SwapLink;
  }

  lemma DeadBuild(job: Job, w: World)
    requires w.life == 0 && Versioned(job.digest) !in w.dirs
    ensures PlaceSample(job, w).life == 0 && Versioned(job.digest) !in PlaceSample(job, w).dirs
  {
    BuildIsSample(job, w);
    hide Build;
  }

  /** A run can leave the world with an announced digest and no directory for it exactly
      when it finds that digest announced and its directory missing or not the sample it
      would place: the guard under which the code rebuilds. */
  lemma WindowOpensIff(run: Run, w: World)
    ensures var job := JobOf(run, w);
      (exists life: nat :: InSwapWindow(Write(run, w.(life := life)), job.digest)) <==> Announced(w, job.digest) && !UpToDate(job, w)
  {
    var job := JobOf(run, w);
    forall life: nat | InSwapWindow(Write(run, w.(life := life)), job.digest) ensures Announced(w, job.digest) && !UpToDate(job, w) {
      WindowNeedsStale(job, w.(life := life));
    }
    if Announced(w, job.digest) && !UpToDate(job, w) {
      var life := LifeToWindow(job, w);
      assert LifeToWindow(job, w.(life := life)) == life;
      StaleOpensWindow(job, w.(life := life));
      assert InSwapWindow(Write(run, w.(life := life)), job.digest);
    }
  }

  /** With the directory still there this is the code's own test for a stale one. */
  lemma StaleGuard(run: Run, w: World)
    requires Announced(w, JobOf(run, w).digest) && Versioned(JobOf(run, w).digest) in w.dirs
    ensures var job := JobOf(run, w);
      (exists life: nat :: InSwapWindow(Write(run, w.(life := life)), job.digest)) <==> w.dirs[Versioned(job.digest)] != Sample(job, w)
  {
    WindowOpensIff(run, w);
  }

  // ------------------------------------------------------------ a capture drifts

  lemma {:induction false} PruneLife(job: Job, order: seq<Name>, w: World)
    ensures Prune(job, order, w).life + 2 * |order| >= w.life
    decreases |order|
  {
    if order != [] { PruneLife(job, order[1..], if order[0] == Versioned(job.digest) then w else RmTree(w, order[0], job)); }
  }

  function EnoughLife(job: Job): nat { 2 * |job.order| + |job.picks| + 20 }

  lemma {:induction false} CopyCostBound(captures: map<Id, string>, ids: seq<Id>)
    ensures CopyCost(captures, ids) <= |ids|
    decreases |ids|
  {
    if ids != [] { CopyCostBound(captures, ids[1..]); }
  }

  lemma PlaceLife(job: Job, w: World)
    ensures PlaceSample(job, w).life + |job.picks| + 12 >= w.life
  {
    hide Build, Install, RmTree, Rename, Sample;
    BuildLife(job, w);
    CopyCostBound(w.captures, job.picks);
    InstallShape(job, Build(job, w));
    ReplacementShape(job, Build(job, w));
  }

  lemma PublishLives(job: Job, w: World)
    requires w.life >= EnoughLife(job)
    ensures Publish(job, w).life > 0
  {
    var w1 := PlaceSample(job, w);
    PlaceLife(job, w);
    var w2 := Announce(job, SwapLink(job, w1));
    assert w2.life + 4 >= w1.life;
    PruneLife(job, job.order, w2);
    hide PlaceSample, Announce, SwapLink, Prune;
  }

  /** After any finished publication, a change in the capture of one sampled meeting and
      nothing else lets the next run, which prints the same digest, be killed with the
      digest announced and its sample gone. */
  lemma DriftOpensWindow(run: Run, w: World, id: Id, text: string)
    requires Whole(w) && Write(run, w).life > 0 && id in Sample(JobOf(run, w), w) && text != w.captures[id]
    ensures var w' := Write(run, w); var drifted := w'.(captures := w'.captures[id := text]);
      Printed(run, drifted) == Printed(run, w) && exists life: nat :: InSwapWindow(Write(run, drifted.(life := life)), Printed(run, w))
  {
    var job, w' := JobOf(run, w), Write(run, w);
    PublishKeeps(job, w);
    var drifted := w'.(captures := w'.captures[id := text]);
    assert Eligible(drifted) == Eligible(w);
    assert JobOf(run, drifted) == job;
    assert Sample(job, drifted)[id] == text && Sample(job, w)[id] != text;
    hide Publish, Eligible;
    WindowOpensIff(run, drifted);
  }

  /** Dry-run one meeting, publish, let its capture drift, publish again and die between
      the two renames. */
  lemma DriftRun(run: Run, e: DigestTable.Entry, before: string, after: string) returns (w1: World, w2: World, w3: World, enough: nat, life: nat)
    requires Samples(run.pick) && e.dry.Some? && e.dry.value.exit == Some(0) && before != after
    ensures w1 == Fresh.(rows := [e], captures := map[e.id := before]) && w2 == Write(run, w1.(life := enough))
    ensures w3 == w2.(captures := w2.captures[e.id := after]) && w3.rows == [e]
    ensures InSwapWindow(Write(run, w3.(life := life)), DigestTable.Digest(run.header, [e]))
  {
    w1 := Fresh.(rows := [e], captures := map[e.id := before]);
    var job := JobOf(run, w1);
    enough := EnoughLife(job);
    var start := w1.(life := enough);
    OneEligible(run, start, e, before);
    assert Whole(start) && JobOf(run, start) == job && start.captures[e.id] == before;
    hide Publish, Eligible, Sample, Printed, EnoughLife, Whole, Samples;
    PublishLives(job, start);
    DriftOpensWindow(run, start, e.id, after);
    PublishKeeps(job, start);
    w2 := Write(run, start);
    w3 := w2.(captures := w2.captures[e.id := after]);
    life :| InSwapWindow(Write(run, w3.(life := life)), Printed(run, start));
    SamePrinted(run, start, e);
  }

  lemma SamePrinted(run: Run, w: World, e: DigestTable.Entry)
    requires w.rows == [e]
    ensures Printed(run, w) == DigestTable.Digest(run.header, [e])
  {}

  /** So the window is reachable for every wording, seeded choice and meeting, with only
      a capture changing between the two publications of one digest. */
  lemma SwapWindowExists(run: Run, e: DigestTable.Entry, before: string, after: string)
    requires Samples(run.pick) && e.dry.Some? && e.dry.value.exit == Some(0) && before != after
    ensures exists cmds :: InSwapWindow(Campaign(Fresh, cmds), DigestTable.Digest(run.header, [e]))
  {
    hide *;
    var a, b, c, d, w1, w2, w3 := DriftCommands(run, e, before, after);
    FourCommands(a, b, c, d, w1, w2, w3);
    assert InSwapWindow(Campaign(Fresh, [a] + ([b] + ([c] + ([d] + [])))), DigestTable.Digest(run.header, [e]));
  }

  lemma DriftCommands(run: Run, e: DigestTable.Entry, before: string, after: string)
    returns (a: Command, b: Command, c: Command, d: Command, w1: World, w2: World, w3: World)
    requires Samples(run.pick) && e.dry.Some? && e.dry.value.exit == Some(0) && before != after
    ensures Exec(Fresh, a) == w1 && Exec(w1, b) == w2 && Exec(w2, c) == w3
    ensures InSwapWindow(Exec(w3, d), DigestTable.Digest(run.header, [e]))
  {
    var enough, life;
    w1, w2, w3, enough, life := DriftRun(run, e, before, after);
    a, b, c, d := Change([e], map[e.id := before]), Publication(run, enough), Change([e], w3.captures), Publication(run, life);
    hide Write, Samples, InSwapWindow;
    FirstThree(run, e, before, w1, w2, w3, enough);
    LastCommand(run, w3, life);
  }

  lemma LastCommand(run: Run, w: World, life: nat)
    ensures Exec(w, Publication(run, life)) == Write(run, w.(life := life))
  {
    hide Write;
  }

  lemma FirstThree(run: Run, e: DigestTable.Entry, before: string, w1: World, w2: World, w3: World, enough: nat)
    requires w1 == Fresh.(rows := [e], captures := map[e.id := before]) && w2 == Write(run, w1.(life := enough))
    requires w3 == w2.(captures := w3.captures) && w3.rows == [e]
    ensures Exec(Fresh, Change([e], map[e.id := before])) == w1
    ensures Exec(w1, Publication(run, enough)) == w2
    ensures Exec(w2, Change([e], w3.captures)) == w3
  {
    hide Write;
  }

  lemma OneEligible(run: Run, w: World, e: DigestTable.Entry, text: string)
    requires Samples(run.pick) && e.dry.Some? && e.dry.value.exit == Some(0) && w.rows == [e] && w.captures == map[e.id := text]
    ensures e.id in Sample(JobOf(run, w), w)
  {
    assert e in w.rows;
    assert Eligible(w) == {e.id};
    var picks := JobOf(run, w).picks;
    assert |picks| == 1 && picks[0] in picks;
  }

  lemma OneMore(w: World, c: Command, rest: seq<Command>)
    ensures Campaign(w, [c] + rest) == Campaign(Exec(w, c), rest)
  {
    assert ([c] + rest)[1..] == rest;
  }

  lemma FourCommands(a: Command, b: Command, c: Command, d: Command, w1: World, w2: World, w3: World)
    requires Exec(Fresh, a) == w1 && Exec(w1, b) == w2 && Exec(w2, c) == w3
    ensures Campaign(Fresh, [a] + ([b] + ([c] + ([d] + [])))) == Exec(w3, d)
  {
    OneMore(Fresh, a, [b] + ([c] + ([d] + [])));
    OneMore(w1, b, [c] + ([d] + []));
    OneMore(w2, c, [d] + []);
    OneMore(w3, d, []);
  }
}
