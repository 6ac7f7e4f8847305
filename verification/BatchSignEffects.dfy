/** What a signing requires, what it leaves on disk, and which meetings an apply
    launches, in terms of the batch files themselves. */
module BatchSignEffects {
  import opened Common
  import DigestTable
  import opened BatchSign

  // ------------------------------------------------------------ who is attempted, who is a candidate

  /** The recorded dry-run of a meeting. */
  ghost predicate Recorded(prog: seq<Entry>, key: Key, d: DryRun) {
    exists k :: 0 <= k < |prog| && prog[k].key == key && prog[k].dry == Some(d)
  }

  lemma {:induction false} LookupIs(prog: seq<Entry>, key: Key)
    requires IsDict(prog)
    ensures forall d :: Lookup(prog, key) == Some(d) <==> Recorded(prog, key, d)
    decreases |prog|
  {
    if prog != [] {
      var rest := prog[1..];
      LookupIs(rest, key);
      assert forall k :: 0 <= k < |rest| ==> rest[k] == prog[k + 1];
      forall d ensures Lookup(prog, key) == Some(d) <==> Recorded(prog, key, d) {
        if Recorded(rest, key, d) {
          var k :| 0 <= k < |rest| && rest[k].key == key && rest[k].dry == Some(d);
          assert prog[k + 1].key == key;
        }
        if k :| 0 <= k < |prog| && prog[k].key == key && prog[k].dry == Some(d) {
          if k > 0 { assert rest[k - 1] == prog[k] && Recorded(rest, key, d); }
        }
      }
    }
  }

  /** No dry-run of this meeting left an exit code. */
  ghost predicate NeverRan(prog: seq<Entry>, key: Key) {
    forall d :: Recorded(prog, key, d) ==> d.exit.None?
  }

  lemma {:induction false} UnattemptedAre(rows: seq<ManifestRow>, kind: string, prog: seq<Entry>, id: Id)
    requires IsDict(prog)
    ensures id in Unattempted(rows, kind, prog) <==>
      exists k :: 0 <= k < |rows| && rows[k].id == id && !rows[k].alreadyApplied && NeverRan(prog, Key(kind, id))
    decreases |rows|
  {
    if rows != [] {
      UnattemptedAre(rows[1..], kind, prog, id);
      LookupIs(prog, Key(kind, rows[0].id));
      assert forall k :: 0 < k < |rows| ==> rows[k] == rows[1..][k - 1];
      hide Recorded;
    }
  }

  lemma {:induction false} AuthorizedAre(rows: seq<ManifestRow>, kind: string, prog: seq<Entry>, id: Id)
    requires IsDict(prog)
    ensures id in Authorized(rows, kind, prog) <==>
      exists k :: 0 <= k < |rows| && rows[k].id == id && !rows[k].alreadyApplied && Recorded(prog, Key(kind, id), DryRun(Some(0)))
    decreases |rows|
  {
    if rows != [] {
      AuthorizedAre(rows[1..], kind, prog, id);
      LookupIs(prog, Key(kind, rows[0].id));
      assert forall k :: 0 < k < |rows| ==> rows[k] == rows[1..][k - 1];
      hide Recorded;
    }
  }

  lemma {:induction false} CandidatesAre(prog: seq<Entry>, pending: set<Id>, id: Id)
    ensures id in Candidates(prog, pending) <==> id in pending && exists k :: 0 <= k < |prog| && prog[k].key.id == id && prog[k].dry == Some(DryRun(Some(0)))
    decreases |prog|
  {
    if prog != [] {
      CandidatesAre(prog[1..], pending, id);
      assert forall k :: 0 < k < |prog| ==> prog[k] == prog[1..][k - 1];
      assert ExitZero(prog[0].dry) <==> prog[0].dry == Some(DryRun(Some(0)));
      hide ExitZero;
    }
  }

  // ------------------------------------------------------------ what a signing requires

  /** The places of the manifest rows still to do that no dry-run has reached. */
  ghost function Unreached(rows: seq<ManifestRow>, kind: string, prog: seq<Entry>): set<int> {
    set k | 0 <= k < |rows| && !rows[k].alreadyApplied && NeverRan(prog, Key(kind, rows[k].id))
  }

  lemma UnreachedGrows(rows: seq<ManifestRow>, r: ManifestRow, kind: string, prog: seq<Entry>)
    ensures |Unreached(rows + [r], kind, prog)| == |Unreached(rows, kind, prog)| + if !r.alreadyApplied && NeverRan(prog, Key(kind, r.id)) then 1 else 0
  {
    hide NeverRan;
    assert Unreached(rows + [r], kind, prog) == Unreached(rows, kind, prog) + if !r.alreadyApplied && NeverRan(prog, Key(kind, r.id)) then {|rows|} else {};
  }

  lemma AttemptedIffRan(prog: seq<Entry>, key: Key)
    requires IsDict(prog)
    ensures Attempted(Lookup(prog, key)) <==> !NeverRan(prog, key)
  {
    LookupIs(prog, key);
    hide Recorded, Lookup;
  }

  lemma {:induction false} UnattemptedAppend(rows: seq<ManifestRow>, r: ManifestRow, kind: string, prog: seq<Entry>)
    requires IsDict(prog)
    ensures Unattempted(rows + [r], kind, prog) == Unattempted(rows, kind, prog) + if !r.alreadyApplied && NeverRan(prog, Key(kind, r.id)) then [r.id] else []
    decreases |rows|
  {
    hide NeverRan, Attempted, Lookup;
    if rows == [] {
      AttemptedIffRan(prog, Key(kind, r.id));
      assert rows + [r] == [r] && [r][1..] == [];
    } else {
      assert (rows + [r])[1..] == rows[1..] + [r];
      UnattemptedAppend(rows[1..], r, kind, prog);
    }
  }

  lemma {:induction false} UnattemptedCount(rows: seq<ManifestRow>, kind: string, prog: seq<Entry>)
    requires IsDict(prog)
    ensures |Unattempted(rows, kind, prog)| == |Unreached(rows, kind, prog)|
    decreases |rows|
  {
    if rows == [] {
      assert Unreached(rows, kind, prog) == {};
    } else {
      var n := |rows| - 1;
      UnattemptedCount(rows[..n], kind, prog);
      UnattemptedAppend(rows[..n], rows[n], kind, prog);
      UnreachedGrows(rows[..n], rows[n], kind, prog);
      assert rows == rows[..n] + [rows[n]];
      hide *;
    }
  }

  lemma AttemptedIdsAre(prog: seq<Entry>, kind: string, id: Id)
    ensures id in AttemptedIds(prog, kind) <==> !NeverRan(prog, Key(kind, id))
  {
    if id in AttemptedIds(prog, kind) {
      var e :| e in prog && e.key.kind == kind && Attempted(e.dry) && e.key.id == id;
      var k :| 0 <= k < |prog| && prog[k] == e;
      assert Recorded(prog, Key(kind, id), e.dry.value);
    }
    if !NeverRan(prog, Key(kind, id)) {
      var d :| Recorded(prog, Key(kind, id), d) && d.exit.Some?;
      var k :| 0 <= k < |prog| && prog[k].key == Key(kind, id) && prog[k].dry == Some(d);
      assert prog[k] in prog;
    }
  }

  /** The manifest and the progress file belong to the batch, which is in order. */
  ghost predicate OwnBatch(env: Env, args: Args, d: Disk) {
    var m := env.parse(d.manifest);
    && m.batchId == args.batch == d.prog.batchId && d.prog.kind == m.kind
    && (forall r :: r in m.rows ==> r.kind == m.kind) && (forall e :: e in d.prog.rows ==> e.key.kind == m.kind)
    && env.inOrder(m.rows) && forall i, j :: 0 <= i < j < |m.rows| ==> m.rows[i].id != m.rows[j].id
  }

  /** The published digest shows exactly the meetings with an exit code, and words how many
      are unreached. */
  ghost predicate ShowsAttempted(env: Env, d: Disk) {
    var m := env.parse(d.manifest);
    && d.digest.Some? && d.sidecar == d.digest && d.link == d.digest
    && (forall id :: id in DigestTable.RowIds(d.digest.value) <==> !NeverRan(d.prog.rows, Key(m.kind, id)))
    && env.headerCount(d.digest.value) == Some(|Unreached(m.rows, m.kind, d.prog.rows)|)
  }

  /** The linked sample is the one on record, of candidates as they are captured now; all
      of fewer than ten candidates, else ten. */
  ghost predicate GoodSample(d: Disk, candidates: seq<Id>) {
    && multiset(d.prog.sampleIds) == multiset(d.listing.Keys)
    && |d.prog.sampleIds| == (if |candidates| < 10 then |candidates| else 10)
    && forall id :: id in d.listing ==> id in candidates && id in d.captures && d.captures[id] == d.listing[id]
  }

  lemma OwnBatchIff(env: Env, args: Args, d: Disk)
    ensures OwnBatch(env, args, d) <==>
      BatchBound(env, args, d) && forall i :: 0 <= i < |d.prog.rows| ==> d.prog.rows[i].key.kind == env.parse(d.manifest).kind
  {
    var m := env.parse(d.manifest);
    assert (forall r :: r in m.rows ==> r.kind == m.kind) <==> forall i :: 0 <= i < |m.rows| ==> m.rows[i].kind == m.kind;
  }

  lemma ShowsAttemptedIff(env: Env, d: Disk)
    requires IsDict(d.prog.rows)
    ensures ShowsAttempted(env, d) <==> DigestCurrent(env, d) && d.link == d.digest
  {
    var m := env.parse(d.manifest);
    UnattemptedCount(m.rows, m.kind, d.prog.rows);
    forall id ensures id in AttemptedIds(d.prog.rows, m.kind) <==> !NeverRan(d.prog.rows, Key(m.kind, id)) { AttemptedIdsAre(d.prog.rows, m.kind, id); }
    hide NeverRan, Unattempted, Unreached, AttemptedIds, DigestTable.RowIds;
  }

  lemma GoodSampleIff(d: Disk, candidates: seq<Id>)
    requires d.digest.Some?
    ensures GoodSample(d, candidates) && d.link == d.digest <==> SampleCurrent(d.link, d.digest.value, d.listing, d.prog.sampleIds, d.captures, candidates)
  {
    if GoodSample(d, candidates) && candidates != [] { assert d.prog.sampleIds[0] in multiset(d.prog.sampleIds); }
  }

  lemma NothingUnattempted(rows: seq<ManifestRow>, kind: string, prog: seq<Entry>)
    requires IsDict(prog)
    ensures Unattempted(rows, kind, prog) == [] <==> forall r :: r in rows && !r.alreadyApplied ==> !NeverRan(prog, Key(kind, r.id))
  {
    var ids := Unattempted(rows, kind, prog);
    forall r | r in rows && !r.alreadyApplied && ids == [] ensures !NeverRan(prog, Key(kind, r.id)) {
      UnattemptedAre(rows, kind, prog, r.id);
      var k :| 0 <= k < |rows| && rows[k] == r;
    }
    if ids != [] { UnattemptedAre(rows, kind, prog, ids[0]); }
    hide NeverRan, Unattempted;
  }

  /** A signing is accepted exactly when the batch is its own, nothing is unreached or
      partial signing is allowed, date and signer are fit, the digest shows what was
      attempted, the sample is good and every candidate's capture complete. */
  lemma SigningIsAcceptedIff(env: Env, args: Args, d: Disk)
    requires IsDict(d.prog.rows)
    ensures var m := env.parse(d.manifest); var candidates := Candidates(d.prog.rows, Pending(m.rows));
      SignAccepts(env, args, d) <==>
        && OwnBatch(env, args, d)
        && (args.allowPartial || forall r :: r in m.rows && !r.alreadyApplied ==> !NeverRan(d.prog.rows, Key(m.kind, r.id)))
        && env.dateOk(args.signedAt) && env.signerOk(args.signer)
        && ShowsAttempted(env, d) && GoodSample(d, candidates)
        && forall id :: id in candidates ==> id in d.captures && env.complete(d.captures[id])
  {
    var m := env.parse(d.manifest);
    var candidates := Candidates(d.prog.rows, Pending(m.rows));
    OwnBatchIff(env, args, d);
    ShowsAttemptedIff(env, d);
    NothingUnattempted(m.rows, m.kind, d.prog.rows);
    if d.digest.Some? { GoodSampleIff(d, candidates); }
    CompleteIff(env, d, candidates);
    hide OwnBatch, BatchBound, ShowsAttempted, DigestCurrent, GoodSample, SampleCurrent, NeverRan, Unattempted, Candidates, CapturesComplete;
    assert DigestCurrent(env, d) ==> d.digest.Some? by { DigestIsThere(env, d); }
  }

  lemma DigestIsThere(env: Env, d: Disk)
    ensures DigestCurrent(env, d) ==> d.digest.Some?
    ensures ShowsAttempted(env, d) ==> d.digest.Some?
  {}

  lemma CompleteIff(env: Env, d: Disk, candidates: seq<Id>)
    ensures CapturesComplete(env, d, candidates) <==> forall id :: id in candidates ==> id in d.captures && env.complete(d.captures[id])
  {}

  // ------------------------------------------------------------ what it leaves

  /** The marker a signing gives a meeting. */
  ghost predicate Signs(args: Args, d: Disk, id: Id, m: Marker) {
    && m.signer == args.signer && m.signedAt == args.signedAt && id in d.captures && m.capture == d.captures[id]
    && d.digest.Some? && m.binding == Some(Binding(args.batch, d.digest.value))
  }

  lemma {:induction false} FanOutWrites(args: Args, d: Disk, ids: seq<Id>, w: World)
    requires d.digest.Some? && forall i :: 0 <= i < |ids| ==> ids[i] in d.captures
    requires FanOut(args, d, ids, w).life > 0
    ensures var w' := FanOut(args, d, ids, w);
      && w'.log == w.log && w'.disk == w.disk.(markers := w'.disk.markers)
      && (forall id :: id in ids ==> id in w'.disk.markers && Signs(args, d, id, w'.disk.markers[id]))
      && (forall id :: id !in ids ==> (id in w'.disk.markers <==> id in w.disk.markers) && (id in w.disk.markers ==> w'.disk.markers[id] == w.disk.markers[id]))
    decreases |ids|
  {
    if ids != [] {
      var next := WriteMarker(w, ids[0], MarkerFor(args, d, ids[0]));
      FanOutSpends(args, d, ids[1..], next);
      FanOutWrites(args, d, ids[1..], next);
      assert ids == [ids[0]] + ids[1..];
    }
  }

  lemma {:induction false} FanOutSpends(args: Args, d: Disk, ids: seq<Id>, w: World)
    requires d.digest.Some? && forall i :: 0 <= i < |ids| ==> ids[i] in d.captures
    ensures FanOut(args, d, ids, w).life <= w.life
    decreases |ids|
  {
    if ids != [] { FanOutSpends(args, d, ids[1..], WriteMarker(w, ids[0], MarkerFor(args, d, ids[0]))); }
  }

  /** An accepted signing that is not killed leaves a finished record of what was signed
      (batch, digest, manifest, the candidates, the sample, signer and date, and who was
      never attempted), a marker for every candidate, and every other file as it was. */
  lemma SigningLeaves(env: Env, args: Args, w: World)
    requires SignAccepts(env, args, w.disk) && Sign(env, args, w).life > 0
    ensures var d, d' := w.disk, Sign(env, args, w).disk; var m := env.parse(d.manifest); var candidates := Candidates(d.prog.rows, Pending(m.rows));
      && d' == d.(signed := d'.signed, markers := d'.markers)
      && d'.signed == Some(Signed(args.batch, d.digest.value, d.manifest, candidates, d.listing.Keys, args.signer, args.signedAt,
                                  Unattempted(m.rows, m.kind, d.prog.rows), true))
      && (forall id :: id in candidates ==> id in d'.markers && Signs(args, d, id, d'.markers[id]))
      && (forall id :: id !in candidates ==> (id in d'.markers <==> id in d.markers) && (id in d.markers ==> d'.markers[id] == d.markers[id]))
  {
    var d := w.disk;
    var m := env.parse(d.manifest);
    var candidates := Candidates(d.prog.rows, Pending(m.rows));
    var w1 := WriteSigned(w.(log := w.log + [Accepted(args, d)]), Record(env, args, d, false));
    assert d.digest.Some? && CapturesComplete(env, d, candidates);
    hide SignAccepts, Candidates, Unattempted, Signs;
    FanOutWrites(args, d, candidates, w1);
  }

  // ------------------------------------------------------------ what an apply launches

  function Still(ids: seq<Id>, todo: set<Id>): seq<Id> {
    if ids == [] then [] else (if ids[0] in todo then [ids[0]] else []) + Still(ids[1..], todo)
  }

  function LaunchEvents(ids: seq<Id>, batch: string, d: Disk): seq<Event> {
    seq(|ids|, k requires 0 <= k < |ids| => Launched(ids[k], batch, d))
  }

  lemma EventsJoin(a: seq<Id>, c: seq<Id>, batch: string, d: Disk)
    ensures LaunchEvents(a + c, batch, d) == LaunchEvents(a, batch, d) + LaunchEvents(c, batch, d)
  {}

  /** `w'` is `w` after as many of these events as it lived for. */
  ghost predicate After(w: World, events: seq<Event>, w': World) {
    var n := if w.life < |events| then w.life else |events|;
    w'.disk == w.disk && w'.life == w.life - n && w'.log == w.log + events[..n]
  }

  lemma AfterBoth(w: World, a: seq<Event>, w1: World, c: seq<Event>, w2: World)
    requires After(w, a, w1) && After(w1, c, w2)
    ensures After(w, a + c, w2)
  {
    if w.life < |a| {
      assert (a + c)[..w.life] == a[..w.life] && w1.log + c[..0] == w1.log;
    } else {
      var n := if w1.life < |c| then w1.life else |c|;
      assert a[..|a|] == a && (a + c)[..|a| + n] == a + c[..n];
      assert w.log + (a + c[..n]) == (w.log + a) + c[..n];
    }
  }

  lemma OneLaunch(w: World, batch: string, id: Id, todo: set<Id>)
    ensures After(w, LaunchEvents(if id in todo then [id] else [], batch, w.disk), if id in todo then Launch(w, batch, id) else w)
  {
    var events := LaunchEvents(if id in todo then [id] else [], batch, w.disk);
    if id in todo { assert events == [Launched(id, batch, w.disk)]; }
    assert events[..|events|] == events && w.log + events[..0] == w.log;
  }

  lemma {:induction false} LaunchesFollow(w: World, batch: string, ids: seq<Id>, todo: set<Id>)
    ensures After(w, LaunchEvents(Still(ids, todo), batch, w.disk), Launches(w, batch, ids, todo))
    decreases |ids|
  {
    if ids == [] {
      assert w.log + [] == w.log;
    } else {
      var first := if ids[0] in todo then [ids[0]] else [];
      var next := if ids[0] in todo then Launch(w, batch, ids[0]) else w;
      OneLaunch(w, batch, ids[0], todo);
      LaunchesFollow(next, batch, ids[1..], todo);
      EventsJoin(first, Still(ids[1..], todo), batch, w.disk);
      hide LaunchEvents;
      AfterBoth(w, LaunchEvents(first, batch, w.disk), next, LaunchEvents(Still(ids[1..], todo), batch, w.disk), Launches(next, batch, ids[1..], todo));
      hide After;
    }
  }

  /** An apply that passes its preflight launches the authorized meetings that are still to
      do, in manifest order, all of them or as many as it lives for; one that does not pass
      launches nothing. */
  lemma ApplyLaunchesWhatIsLeft(env: Env, batch: string, todo: set<Id>, w: World)
    ensures var m := env.parse(w.disk.manifest); var w' := Apply(env, batch, todo, w);
      var due := if Preflight(env, batch, w.disk) then LaunchEvents(Still(Authorized(m.rows, m.kind, w.disk.prog.rows), todo), batch, w.disk) else [];
      After(w, due, w')
  {
    var m := env.parse(w.disk.manifest);
    LaunchesFollow(w, batch, Authorized(m.rows, m.kind, w.disk.prog.rows), todo);
    assert w.log + [] == w.log;
    hide Preflight, Launches, LaunchEvents, Still, Authorized;
  }
}
