/** What a finished publication leaves behind, file by file. */
module DigestPublishEffects {
  import opened Common
  import DigestTable
  import opened DigestPublish
  import opened DigestPublishSafety

  /** Eligible are exactly the meetings whose dry-run ended with 0 and left a capture. */
  lemma EligibleAre(w: World, id: Id)
    ensures id in Eligible(w) <==>
      id in w.captures && exists k :: 0 <= k < |w.rows| && w.rows[k].id == id && w.rows[k].dry.Some? && w.rows[k].dry.value.exit == Some(0)
  {
    if id in Eligible(w) {
      var e :| e in w.rows && e.dry.Some? && e.dry.value.exit == Some(0) && e.id in w.captures && e.id == id;
      var k :| 0 <= k < |w.rows| && w.rows[k] == e;
    }
  }

  lemma {:induction false} PruneRemoves(job: Job, order: seq<Name>, w: World, name: Name)
    requires Prune(job, order, w).life > 0 && name != Versioned(job.digest)
    ensures name in Prune(job, order, w).dirs <==> name in w.dirs && name !in order
    decreases |order|
  {
    if order != [] {
      var next := if order[0] == Versioned(job.digest) then w else RmTree(w, order[0], job);
      PruneSpends(job, order[1..], next);
      assert order == [order[0]] + order[1..];
      PruneRemoves(job, order[1..], next, name);
    }
  }

  lemma {:induction false} PruneSpends(job: Job, order: seq<Name>, w: World)
    ensures Prune(job, order, w).life <= w.life
    decreases |order|
  {
    if order != [] { PruneSpends(job, order[1..], if order[0] == Versioned(job.digest) then w else RmTree(w, order[0], job)); }
  }

  /** Wherever the swap is killed the link is the old one or the new one, except that a
      plain directory in its place leaves none for one step. */
  lemma LinkIsSwapped(job: Job, w: World)
    ensures var w' := SwapLink(job, w);
      && w'.link == (if w.life == 0 then w.link else if w.link.PlainDir? && w.life == 1 then NoLink else To(Versioned(job.digest)))
      && w' == w.(link := w'.link, life := w'.life)
      && w'.life == (var n := if w.link.PlainDir? then 2 else 1; if w.life < n then 0 else w.life - n)
  {}

  lemma RecordIs(job: Job, w: World)
    ensures var w' := Record(job, w); w'.dirs == w.dirs && w'.life <= w.life && (w'.life > 0 ==> w.life > 0 && w'.sampleIds == job.picks)
  {}

  /** The last two parts of a publication, alive. */
  lemma CleanedAndRecorded(job: Job, w: World, w': World)
    requires w' == Record(job, Prune(job, job.order, w)) && w'.life > 0
    ensures w.life > 0 && w'.sampleIds == job.picks
    ensures forall name :: name in job.order && name != Versioned(job.digest) ==> name !in w'.dirs
  {
    hide *;
    RecordIs(job, Prune(job, job.order, w));
    PruneSpends(job, job.order, w);
    forall name | name in job.order && name != Versioned(job.digest) ensures name !in w'.dirs { PruneRemoves(job, job.order, w, name); }
  }

  /** A publication that is not killed leaves the digest of the rows with its sidecar, the
      link on that digest's directory, in it the capture of every pick as it is now and
      nothing else, the picks on record, and none of the directories it was to clean up. */
  lemma PublicationLeaves(run: Run, w: World)
    requires Samples(run.pick) && Whole(w) && Write(run, w).life > 0
    ensures var w' := Write(run, w); var v := Versioned(DigestTable.Digest(run.header, w.rows)); var picks := run.pick(Eligible(w));
      && w'.digest == w'.sidecar == Some(v.digest) && w'.link == To(v) && v in w'.dirs && w'.sampleIds == picks
      && (forall id :: id in w'.dirs[v] <==> id in picks)
      && (forall id :: id in picks ==> id in w.captures && w'.dirs[v][id] == w.captures[id])
      && (forall name :: name in run.order && name != v ==> name !in w'.dirs)
      && w'.rows == w.rows && w'.captures == w.captures
  {
    var job := JobOf(run, w);
    PublishKeeps(job, w);
    SampleIsPicks(run, w);
    CleanedAndRecorded(job, Announce(job, SwapLink(job, PlaceSample(job, w))), Write(run, w));
    hide Publish, Write, Eligible, Sample, Whole, Samples, Prune, Record, Announce, SwapLink, PlaceSample;
  }

  lemma SampleIsPicks(run: Run, w: World)
    requires Samples(run.pick)
    ensures var job := JobOf(run, w);
      && (forall id :: id in Sample(job, w) <==> id in job.picks)
      && (forall id :: id in job.picks ==> id in w.captures && Sample(job, w)[id] == w.captures[id])
  {
    var job := JobOf(run, w);
    assert forall id :: id in job.picks ==> id in Eligible(w);
  }
}
