/** What a signature guarantees over any sequence of signings, applies and
    changes to the batch files, each process killed at any point. */
module BatchSignSafety {
  import opened Common
  import opened BatchSign
  import DigestTable

  // ------------------------------------------------------------ two traversals, one set

  lemma {:induction false} LookupFinds(prog: seq<Entry>, key: Key)
    ensures ExitZero(Lookup(prog, key)) ==> exists e :: e in prog && e.key == key && e.dry == Lookup(prog, key)
    ensures IsDict(prog) ==> forall e :: e in prog && e.key == key ==> Lookup(prog, key) == e.dry
    decreases |prog|
  {
    if prog != [] {
      LookupFinds(prog[1..], key);
      if prog[0].key == key {
        assert prog[0] in prog;
      } else if ExitZero(Lookup(prog, key)) {
        var e :| e in prog[1..] && e.key == key && e.dry == Lookup(prog[1..], key);
        assert e in prog;
      }
    }
  }

  lemma {:induction false} CandidateMembers(prog: seq<Entry>, pending: set<Id>, id: Id)
    ensures id in Candidates(prog, pending) <==> id in pending && exists e :: e in prog && ExitZero(e.dry) && e.key.id == id
    decreases |prog|
  {
    if prog != [] {
      CandidateMembers(prog[1..], pending, id);
      assert prog == [prog[0]] + prog[1..];
      if e :| e in prog && ExitZero(e.dry) && e.key.id == id { assert e == prog[0] || e in prog[1..]; }
      if e :| e in prog[1..] && ExitZero(e.dry) && e.key.id == id { assert e in prog; }
    }
  }

  lemma {:induction false} AuthorizedMembers(rows: seq<ManifestRow>, kind: string, prog: seq<Entry>, id: Id)
    ensures id in Authorized(rows, kind, prog) <==> id in Pending(rows) && ExitZero(Lookup(prog, Key(kind, id)))
    decreases |rows|
  {
    if rows != [] {
      AuthorizedMembers(rows[1..], kind, prog, id);
      assert rows == [rows[0]] + rows[1..];
      assert Pending(rows) == (if rows[0].alreadyApplied then {} else {rows[0].id}) + Pending(rows[1..]);
    }
  }

  ghost predicate Distinct(s: seq<Id>) {
    forall i, j :: 0 <= i < j < |s| ==> s[i] != s[j]
  }

  lemma {:induction false} DistinctCounts(s: seq<Id>, x: Id)
    requires Distinct(s)
    ensures multiset(s)[x] == if x in s then 1 else 0
    decreases |s|
  {
    if s != [] {
      assert s == [s[0]] + s[1..];
      DistinctCounts(s[1..], x);
    }
  }

  lemma {:induction false} CandidatesDistinct(prog: seq<Entry>, pending: set<Id>, kind: string)
    requires IsDict(prog) && forall i :: 0 <= i < |prog| ==> prog[i].key.kind == kind
    ensures Distinct(Candidates(prog, pending))
    decreases |prog|
  {
    if prog != [] {
      CandidatesDistinct(prog[1..], pending, kind);
      var id := prog[0].key.id;
      CandidateMembers(prog[1..], pending, id);
      assert id !in Candidates(prog[1..], pending);
    }
  }

  lemma {:induction false} AuthorizedDistinct(rows: seq<ManifestRow>, kind: string, prog: seq<Entry>)
    requires DistinctIds(rows)
    ensures Distinct(Authorized(rows, kind, prog))
    decreases |rows|
  {
    if rows != [] {
      AuthorizedDistinct(rows[1..], kind, prog);
      AuthorizedMembers(rows[1..], kind, prog, rows[0].id);
    }
  }

  /** The signer's walk over the progress file and apply's walk over the manifest
      name the same meetings, each once. */
  lemma CandidatesAreAuthorized(rows: seq<ManifestRow>, kind: string, prog: seq<Entry>)
    requires DistinctIds(rows) && IsDict(prog) && forall i :: 0 <= i < |prog| ==> prog[i].key.kind == kind
    ensures multiset(Candidates(prog, Pending(rows))) == multiset(Authorized(rows, kind, prog))
  {
    var a, b := Candidates(prog, Pending(rows)), Authorized(rows, kind, prog);
    CandidatesDistinct(prog, Pending(rows), kind);
    AuthorizedDistinct(rows, kind, prog);
    forall x ensures multiset(a)[x] == multiset(b)[x] {
      CandidateMembers(prog, Pending(rows), x);
      AuthorizedMembers(rows, kind, prog, x);
      LookupFinds(prog, Key(kind, x));
      if e :| e in prog && ExitZero(e.dry) && e.key.id == x {
        var i :| 0 <= i < |prog| && prog[i] == e;
        assert e.key == Key(kind, x);
      }
      DistinctCounts(a, x);
      DistinctCounts(b, x);
    }
  }

  // ------------------------------------------------------------ the two gates agree

  /** When there is something to apply, the preflight accepts exactly when the
      identity chain and the signed set match and every single meeting would pass
      its own gate. */
  lemma PreflightIsEveryChildGate(env: Env, batch: string, d: Disk)
    requires var m := env.parse(d.manifest); Canonical(env, m) && Authorized(m.rows, m.kind, d.prog.rows) != []
    ensures var m := env.parse(d.manifest); var authorized := Authorized(m.rows, m.kind, d.prog.rows);
      Preflight(env, batch, d) <==>
        && m.batchId == batch && d.prog.batchId == batch
        && d.signed.Some? && multiset(d.signed.value.ids) == multiset(authorized)
        && forall i :: 0 <= i < |authorized| ==> ChildAccepts(batch, authorized[i], d)
  {
    var m := env.parse(d.manifest);
    var authorized := Authorized(m.rows, m.kind, d.prog.rows);
    if d.signed.Some? && multiset(d.signed.value.ids) == multiset(authorized) {
      forall i | 0 <= i < |authorized| ensures authorized[i] in d.signed.value.ids {
        assert authorized[i] in multiset(authorized);
      }
      if forall i :: 0 <= i < |authorized| ==> ChildAccepts(batch, authorized[i], d) {
        assert ChildAccepts(batch, authorized[0], d);
        forall i | 0 <= i < |authorized| ensures MarkerBound(d, d.signed.value, authorized[i]) {
          assert ChildAccepts(batch, authorized[i], d);
        }
      }
      if Preflight(env, batch, d) {
        forall i | 0 <= i < |authorized| ensures ChildAccepts(batch, authorized[i], d) {
          assert MarkerBound(d, d.signed.value, authorized[i]);
        }
      }
    }
  }

  // ------------------------------------------------------------ signing, then applying

  lemma {:induction false} FanOutEffect(args: Args, d: Disk, ids: seq<Id>, w: World)
    requires d.digest.Some? && forall i :: 0 <= i < |ids| ==> ids[i] in d.captures
    ensures var w' := FanOut(args, d, ids, w);
      && w'.log == w.log
      && w'.disk == w.disk.(markers := w'.disk.markers)
      && w'.life == (if w.life >= |ids| then w.life - |ids| else 0)
      && (forall id :: id in w.disk.markers ==> id in w'.disk.markers)
      && (forall id :: id in w'.disk.markers ==>
            || (id in w.disk.markers && w'.disk.markers[id] == w.disk.markers[id])
            || (id in ids && w'.disk.markers[id] == MarkerFor(args, d, id)))
      && (w.life >= |ids| ==> forall id :: id in ids ==> id in w'.disk.markers && w'.disk.markers[id] == MarkerFor(args, d, id))
    decreases |ids|
  {
    if ids != [] {
      var w1 := WriteMarker(w, ids[0], MarkerFor(args, d, ids[0]));
      FanOutEffect(args, d, ids[1..], w1);
      assert ids == [ids[0]] + ids[1..];
    }
  }

  /** A signing that is not killed is accepted by apply as it stands. */
  lemma CompleteSigningIsAccepted(env: Env, args: Args, w: World)
    requires SignAccepts(env, args, w.disk) && IsDict(w.disk.prog.rows)
    requires w.life >= |Record(env, args, w.disk, true).ids| + 2
    ensures Preflight(env, args.batch, Sign(env, args, w).disk)
  {
    var d := w.disk;
    var m := env.parse(d.manifest);
    var candidates := Candidates(d.prog.rows, Pending(m.rows));
    var w1 := WriteSigned(w.(log := w.log + [Accepted(args, d)]), Record(env, args, d, false));
    FanOutEffect(args, d, candidates, w1);
    CandidatesAreAuthorized(m.rows, m.kind, d.prog.rows);
    var authorized := Authorized(m.rows, m.kind, d.prog.rows);
    var d' := Sign(env, args, w).disk;
    forall i | 0 <= i < |authorized| ensures MarkerBound(d', d'.signed.value, authorized[i]) {
      assert authorized[i] in multiset(authorized);
      assert authorized[i] in candidates;
    }
  }

  /** A signing killed after its first write and before its last leaves a batch
      that apply refuses, whatever was signed before. */
  lemma KilledSigningIsRefused(env: Env, args: Args, w: World, batch: string)
    requires SignAccepts(env, args, w.disk) && 1 <= w.life < |Record(env, args, w.disk, true).ids| + 2
    ensures !Preflight(env, batch, Sign(env, args, w).disk)
  {
    var d := w.disk;
    var m := env.parse(d.manifest);
    var w1 := WriteSigned(w.(log := w.log + [Accepted(args, d)]), Record(env, args, d, false));
    FanOutEffect(args, d, Candidates(d.prog.rows, Pending(m.rows)), w1);
  }

  // ------------------------------------------------------------ every reachable state

  datatype Command =
    | SignCmd(args: Args, life: nat)
    | ApplyCmd(batch: string, todo: set<Id>, life: nat)
    | Change(disk: Disk)

  /** What dry-runs, list and a per-meeting signer may do between the two: any
      change to the batch files, but no batch signature and no batch-bound marker
      that a signing did not write. */
  ghost predicate ChangeAllowed(d: Disk, d': Disk) {
    && IsDict(d'.prog.rows)
    && (d'.signed.Some? ==> d'.signed == d.signed)
    && (forall id :: id in d'.markers && d'.markers[id].binding.Some? ==> id in d.markers && d.markers[id] == d'.markers[id])
  }

  ghost function Exec(env: Env, w: World, c: Command): World {
    match c
    case SignCmd(args, life) => Sign(env, args, w.(life := life))
    case ApplyCmd(batch, todo, life) => Apply(env, batch, todo, w.(life := life))
    case Change(disk) => if ChangeAllowed(w.disk, disk) then w.(disk := disk) else w
  }

  ghost function Campaign(env: Env, w: World, cmds: seq<Command>): World
    decreases |cmds|
  {
    if cmds == [] then w else Campaign(env, Exec(env, w, cmds[0]), cmds[1..])
  }

  ghost predicate Honest(env: Env, log: seq<Event>) {
    forall k :: 0 <= k < |log| && log[k].Accepted? ==> SignAccepts(env, log[k].args, log[k].disk) && IsDict(log[k].disk.prog.rows)
  }

  /** The signed record was written by the signing logged at `k`. */
  ghost predicate WrittenBy(env: Env, log: seq<Event>, s: Signed, k: nat) {
    k < |log| && log[k].Accepted? && log[k].disk.digest.Some? && s == Record(env, log[k].args, log[k].disk, s.fanout)
  }

  ghost predicate SignedByLog(env: Env, d: Disk, log: seq<Event>) {
    d.signed.Some? ==> exists k: nat :: WrittenBy(env, log, d.signed.value, k)
  }

  /** The signing at `k` reviewed this meeting in exactly the digest and manifest
      that are current at the launch. */
  ghost predicate ReviewedAt(env: Env, log: seq<Event>, id: Id, batch: string, d: Disk, k: nat) {
    && k < |log| && log[k].Accepted?
    && log[k].args.batch == batch
    && log[k].disk.digest.Some? && log[k].disk.digest == d.digest && log[k].disk.sidecar == d.sidecar == d.digest
    && log[k].disk.manifest == d.manifest
    && id in Record(env, log[k].args, log[k].disk, true).ids
    && id in DigestTable.RowIds(d.digest.value)
    && id in log[k].disk.captures && env.complete(log[k].disk.captures[id])
  }

  ghost predicate LaunchesReviewed(env: Env, log: seq<Event>) {
    forall j :: 0 <= j < |log| && log[j].Launched? ==>
      && ChildAccepts(log[j].batch, log[j].id, log[j].disk)
      && exists k: nat :: k < j && ReviewedAt(env, log, log[j].id, log[j].batch, log[j].disk, k)
  }

  ghost predicate Safe(env: Env, w: World) {
    IsDict(w.disk.prog.rows) && Honest(env, w.log) && SignedByLog(env, w.disk, w.log) && LaunchesReviewed(env, w.log)
  }

  lemma LogGrows(env: Env, log: seq<Event>, e: Event)
    requires Honest(env, log) && LaunchesReviewed(env, log)
    requires e.Accepted? ==> SignAccepts(env, e.args, e.disk) && IsDict(e.disk.prog.rows)
    requires e.Launched? ==> ChildAccepts(e.batch, e.id, e.disk) && exists k: nat :: k < |log| && ReviewedAt(env, log, e.id, e.batch, e.disk, k)
    ensures Honest(env, log + [e]) && LaunchesReviewed(env, log + [e])
    ensures forall d :: SignedByLog(env, d, log) ==> SignedByLog(env, d, log + [e])
  {
    hide LaunchesReviewed, Honest, WrittenBy;
    HonestGrows(env, log, e);
    LaunchesStayReviewed(env, log, e);
    forall d | SignedByLog(env, d, log) ensures SignedByLog(env, d, log + [e]) {
      if d.signed.Some? {
        var k: nat :| WrittenBy(env, log, d.signed.value, k);
        StaysWritten(env, log, e, d.signed.value, k);
      }
    }
  }

  lemma HonestGrows(env: Env, log: seq<Event>, e: Event)
    requires Honest(env, log) && (e.Accepted? ==> SignAccepts(env, e.args, e.disk) && IsDict(e.disk.prog.rows))
    ensures Honest(env, log + [e])
  {
    hide SignAccepts, IsDict;
  }

  lemma StaysWritten(env: Env, log: seq<Event>, e: Event, s: Signed, k: nat)
    requires WrittenBy(env, log, s, k)
    ensures WrittenBy(env, log + [e], s, k)
  {
    hide Record;
    assert (log + [e])[k] == log[k];
  }

  lemma StaysReviewed(env: Env, log: seq<Event>, e: Event, id: Id, batch: string, d: Disk, k: nat)
    requires ReviewedAt(env, log, id, batch, d, k)
    ensures ReviewedAt(env, log + [e], id, batch, d, k)
  {
    hide Record;
    assert (log + [e])[k] == log[k];
  }

  lemma LaunchesStayReviewed(env: Env, log: seq<Event>, e: Event)
    requires LaunchesReviewed(env, log)
    requires e.Launched? ==> ChildAccepts(e.batch, e.id, e.disk) && exists k: nat :: k < |log| && ReviewedAt(env, log, e.id, e.batch, e.disk, k)
    ensures LaunchesReviewed(env, log + [e])
  {
    hide ChildAccepts, ReviewedAt;
    var log' := log + [e];
    forall j | 0 <= j < |log'| && log'[j].Launched?
      ensures ChildAccepts(log'[j].batch, log'[j].id, log'[j].disk)
      ensures exists k: nat :: k < j && ReviewedAt(env, log', log'[j].id, log'[j].batch, log'[j].disk, k)
    {
      if j < |log| { assert log'[j] == log[j]; }
      var k: nat :| k < j && ReviewedAt(env, log, log'[j].id, log'[j].batch, log'[j].disk, k);
      StaysReviewed(env, log, e, log'[j].id, log'[j].batch, log'[j].disk, k);
    }
  }

  /** An exit-0 row of the signed kind is a row of the digest. */
  lemma CandidateIsInDigest(env: Env, args: Args, d: Disk, id: Id)
    requires SignAccepts(env, args, d) && id in Record(env, args, d, true).ids
    ensures id in DigestTable.RowIds(d.digest.value) && id in d.captures && env.complete(d.captures[id])
  {
    var m := env.parse(d.manifest);
    CandidateMembers(d.prog.rows, Pending(m.rows), id);
    var e :| e in d.prog.rows && ExitZero(e.dry) && e.key.id == id;
    assert id in AttemptedIds(d.prog.rows, m.kind);
  }

  lemma {:induction false} LaunchesKeepSafe(env: Env, w: World, batch: string, ids: seq<Id>, todo: set<Id>)
    requires Safe(env, w) && Preflight(env, batch, w.disk)
    requires var m := env.parse(w.disk.manifest); forall id :: id in ids ==> id in Authorized(m.rows, m.kind, w.disk.prog.rows)
    ensures Safe(env, Launches(w, batch, ids, todo))
    decreases |ids|
  {
    if ids != [] {
      var id := ids[0];
      var w' := if id in todo then Launch(w, batch, id) else w;
      if w' != w { LaunchIsReviewed(env, w, batch, id); LogGrows(env, w.log, Launched(id, batch, w.disk)); }
      LaunchesKeepSafe(env, w', batch, ids[1..], todo);
    }
  }

  lemma LaunchIsReviewed(env: Env, w: World, batch: string, id: Id)
    requires Safe(env, w) && Preflight(env, batch, w.disk)
    requires var m := env.parse(w.disk.manifest); id in Authorized(m.rows, m.kind, w.disk.prog.rows)
    ensures ChildAccepts(batch, id, w.disk) && exists k: nat :: k < |w.log| && ReviewedAt(env, w.log, id, batch, w.disk, k)
  {
    var m := env.parse(w.disk.manifest);
    PreflightIsEveryChildGate(env, batch, w.disk);
    var s := w.disk.signed.value;
    var k: nat :| WrittenBy(env, w.log, s, k);
    assert id in multiset(Authorized(m.rows, m.kind, w.disk.prog.rows));
    assert id in s.ids;
    CandidateIsInDigest(env, w.log[k].args, w.log[k].disk, id);
    assert ReviewedAt(env, w.log, id, batch, w.disk, k);
  }

  lemma SignKeepsSafe(env: Env, args: Args, w: World)
    requires Safe(env, w)
    ensures Safe(env, Sign(env, args, w))
  {
    var d := w.disk;
    if SignAccepts(env, args, d) {
      var m := env.parse(d.manifest);
      var ids := Candidates(d.prog.rows, Pending(m.rows));
      assert d.digest.Some? && forall i :: 0 <= i < |ids| ==> ids[i] in d.captures;
      hide SignAccepts, Candidates, Pending, Honest, LaunchesReviewed, Record;
      LogGrows(env, w.log, Accepted(args, d));
      var w0 := w.(log := w.log + [Accepted(args, d)]);
      var w1 := WriteSigned(w0, Record(env, args, d, false));
      assert WrittenBy(env, w0.log, Record(env, args, d, false), |w.log|) by { RecordIsWritten(env, w.log, args, d, false); }
      assert WrittenBy(env, w0.log, Record(env, args, d, true), |w.log|) by { RecordIsWritten(env, w.log, args, d, true); }
      FanOutEffect(args, d, ids, w1);
    }
  }

  lemma RecordIsWritten(env: Env, log: seq<Event>, args: Args, d: Disk, fanout: bool)
    requires d.digest.Some?
    ensures WrittenBy(env, log + [Accepted(args, d)], Record(env, args, d, fanout), |log|)
  {}

  lemma {:induction false} CampaignKeepsSafe(env: Env, w: World, cmds: seq<Command>)
    requires Safe(env, w)
    ensures Safe(env, Campaign(env, w, cmds))
    decreases |cmds|
  {
    if cmds != [] {
      match cmds[0] {
        case SignCmd(args, life) => SignKeepsSafe(env, args, w.(life := life));
        case ApplyCmd(batch, todo, life) =>
          var m := env.parse(w.disk.manifest);
          if Preflight(env, batch, w.disk) {
            LaunchesKeepSafe(env, w.(life := life), batch, Authorized(m.rows, m.kind, w.disk.prog.rows), todo);
          }
        case Change(disk) =>
      }
      CampaignKeepsSafe(env, Exec(env, w, cmds[0]), cmds[1..]);
    }
  }

  /** Starting from a batch nobody has signed, every meeting ever launched passes
      its own gate at that moment, and was a candidate of a signing whose digest
      and manifest are byte for byte the current ones, whose table showed it, and
      whose capture of it was complete. */
  lemma OnlyReviewedMeetingsLaunch(env: Env, start: Disk, cmds: seq<Command>)
    requires start.signed == None && IsDict(start.prog.rows)
    ensures LaunchesReviewed(env, Campaign(env, World(start, [], 0), cmds).log)
  {
    CampaignKeepsSafe(env, World(start, [], 0), cmds);
  }

  /** A drifted batch launches nothing: if the exit-0 set, the digest or the
      manifest differs from the signed record, apply leaves the world alone. */
  lemma DriftIsRefused(env: Env, batch: string, todo: set<Id>, w: World)
    requires w.disk.signed.Some?
    requires var m := env.parse(w.disk.manifest); var s := w.disk.signed.value;
      w.disk.digest != Some(s.digest) || w.disk.manifest != s.manifest
      || (exists id :: (id in s.ids) != (id in Authorized(m.rows, m.kind, w.disk.prog.rows)))
    ensures Apply(env, batch, todo, w) == w
  {
    var m := env.parse(w.disk.manifest);
    var s, authorized := w.disk.signed.value, Authorized(m.rows, m.kind, w.disk.prog.rows);
    if id :| (id in s.ids) != (id in authorized) {
      assert (id in multiset(s.ids)) != (id in multiset(authorized));
    }
  }
}
