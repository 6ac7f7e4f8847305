/** The signing command step by step. */
module BatchSigner {
  import opened Common
  import opened BatchSign
  import DigestTable

  lemma UnattemptedStep(rows: seq<ManifestRow>, kind: string, prog: seq<Entry>, i: nat)
    requires i < |rows|
    ensures Unattempted(rows[i..], kind, prog) == (if !rows[i].alreadyApplied && !Attempted(Lookup(prog, Key(kind, rows[i].id))) then [rows[i].id] else []) + Unattempted(rows[i + 1..], kind, prog)
  {
    hide Lookup;
    assert rows[i..][1..] == rows[i + 1..];
  }

  method UnattemptedRows(rows: seq<ManifestRow>, kind: string, prog: seq<Entry>) returns (ids: seq<Id>)
    ensures ids == Unattempted(rows, kind, prog)
  {
    assert rows[0..] == rows && Unattempted(rows[|rows|..], kind, prog) == [];
    hide Unattempted, Lookup, Attempted, ExitZero;
    ids := [];
    for i := 0 to |rows|
      invariant ids + Unattempted(rows[i..], kind, prog) == Unattempted(rows, kind, prog)
    {
      ghost var rest := Unattempted(rows[i + 1..], kind, prog);
      UnattemptedStep(rows, kind, prog, i);
      if !rows[i].alreadyApplied && !Attempted(Lookup(prog, Key(kind, rows[i].id))) {
        assert ids + ([rows[i].id] + rest) == (ids + [rows[i].id]) + rest;
        ids := ids + [rows[i].id];
      } else {
        assert [] + rest == rest;
      }
    }
    assert ids + [] == ids;
  }

  method AttemptedRows(prog: seq<Entry>, kind: string) returns (ids: set<Id>)
    ensures ids == AttemptedIds(prog, kind)
  {
    ids := {};
    for i := 0 to |prog|
      invariant ids == AttemptedIds(prog[..i], kind)
    {
      assert prog[..i + 1] == prog[..i] + [prog[i]];
      if prog[i].key.kind == kind && Attempted(prog[i].dry) { ids := ids + {prog[i].key.id}; }
    }
    assert prog[..|prog|] == prog;
  }

  /** The candidate loop; it refuses a ledger that names another kind. */
  method CollectCandidates(prog: seq<Entry>, kind: string, pending: set<Id>) returns (ok: bool, ids: seq<Id>)
    ensures ok <==> forall i :: 0 <= i < |prog| ==> prog[i].key.kind == kind
    ensures ok ==> ids == Candidates(prog, pending)
  {
    ids := [];
    for i := 0 to |prog|
      invariant forall j :: 0 <= j < i ==> prog[j].key.kind == kind
      invariant ids + Candidates(prog[i..], pending) == Candidates(prog, pending)
    {
      assert prog[i..][1..] == prog[i + 1..];
      if prog[i].key.kind != kind { return false, []; }
      if !ExitZero(prog[i].dry) { continue; }
      if prog[i].key.id !in pending { continue; }
      ghost var rest := Candidates(prog[i + 1..], pending);
      assert ids + ([prog[i].key.id] + rest) == (ids + [prog[i].key.id]) + rest;
      ids := ids + [prog[i].key.id];
    }
    ok := true;
  }

  class Signer {
    var disk: Disk
    var log: seq<Event>
    var life: nat

    constructor (w: World)
      ensures State() == w
    {
      disk, log, life := w.disk, w.log, w.life;
    }

    function State(): World reads this { World(disk, log, life) }

    method SaveSigned(s: Signed)
      modifies this
      ensures State() == WriteSigned(old(State()), s)
    {
      if life > 0 { disk, life := disk.(signed := Some(s)), life - 1; }
    }

    method SaveMarker(id: Id, m: Marker)
      modifies this
      ensures State() == WriteMarker(old(State()), id, m)
    {
      if life > 0 { disk, life := disk.(markers := disk.markers[id := m]), life - 1; }
    }

    /** Every check of the signing command; nothing is written. */
    method Checked(env: Env, args: Args) returns (ok: bool, candidates: seq<Id>)
      ensures ok <==> SignAccepts(env, args, disk)
      ensures ok ==> candidates == Candidates(disk.prog.rows, Pending(env.parse(disk.manifest).rows))
    {
      hide Candidates, Unattempted, AttemptedIds, Pending, DigestTable.RowIds, BatchBound;
      ok, candidates := false, [];
      var m := env.parse(disk.manifest);
      if !BatchBound(env, args, disk) { return; }
      var unattempted := UnattemptedRows(m.rows, m.kind, disk.prog.rows);
      if unattempted != [] && !args.allowPartial { return; }
      if !env.dateOk(args.signedAt) || !env.signerOk(args.signer) { return; }
      if disk.digest.None? || disk.sidecar != disk.digest { return; }
      var digest := disk.digest.value;
      var attempted := AttemptedRows(disk.prog.rows, m.kind);
      var tableIds := DigestTable.DigestRowIds(digest);
      if tableIds != attempted { return; }
      if env.headerCount(digest) != Some(|unattempted|) { return; }
      if disk.link != Some(digest) { return; }
      var oneKind;
      oneKind, candidates := CollectCandidates(disk.prog.rows, m.kind, Pending(m.rows));
      if !oneKind { return; }
      if !SampleCurrent(disk.link, digest, disk.listing, disk.prog.sampleIds, disk.captures, candidates) { return; }
      ok := CapturesComplete(env, disk, candidates);
    }

    /** The signed record, a marker for every candidate, then the record marked complete. */
    method SignLocked(env: Env, args: Args) returns (code: int)
      modifies this
      ensures State() == old(Sign(env, args, State()))
      ensures code == 0 <==> old(SignAccepts(env, args, disk))
    {
      var ok, candidates := Checked(env, args);
      if !ok { return 1; }
      assert CapturesComplete(env, disk, candidates);
      hide Candidates, Pending, SignAccepts, Record, MarkerFor;
      var reviewed := disk;
      log := log + [Accepted(args, reviewed)];
      SaveSigned(Record(env, args, reviewed, false));
      ghost var before := State();
      for i := 0 to |candidates|
        invariant FanOut(args, reviewed, candidates[i..], State()) == FanOut(args, reviewed, candidates, before)
      {
        assert candidates[i..][1..] == candidates[i + 1..];
        SaveMarker(candidates[i], MarkerFor(args, reviewed, candidates[i]));
      }
      SaveSigned(Record(env, args, reviewed, true));
      code := 0;
    }

    /** Apply: the preflight, then the launches. */
    method ApplyLocked(env: Env, batch: string, todo: set<Id>) returns (code: int)
      modifies this
      ensures State() == old(Apply(env, batch, todo, State()))
      ensures code == 15 <==> old(!Preflight(env, batch, disk))
    {
      hide Authorized, Preflight;
      if !Preflight(env, batch, disk) { return 15; }
      var m := env.parse(disk.manifest);
      var ids := AuthorizedRows(m.rows, m.kind, disk.prog.rows);
      ghost var before := State();
      for i := 0 to |ids|
        invariant Launches(State(), batch, ids[i..], todo) == Launches(before, batch, ids, todo)
      {
        assert ids[i..][1..] == ids[i + 1..];
        if ids[i] in todo && life > 0 {
          log, life := log + [Launched(ids[i], batch, disk)], life - 1;
        }
      }
      code := 0;
    }
  }

  lemma AuthorizedStep(rows: seq<ManifestRow>, kind: string, prog: seq<Entry>, i: nat)
    requires i < |rows|
    ensures Authorized(rows[i..], kind, prog) == (if !rows[i].alreadyApplied && ExitZero(Lookup(prog, Key(kind, rows[i].id))) then [rows[i].id] else []) + Authorized(rows[i + 1..], kind, prog)
  {
    hide Lookup;
    assert rows[i..][1..] == rows[i + 1..];
  }

  method AuthorizedRows(rows: seq<ManifestRow>, kind: string, prog: seq<Entry>) returns (ids: seq<Id>)
    ensures ids == Authorized(rows, kind, prog)
  {
    assert rows[0..] == rows && Authorized(rows[|rows|..], kind, prog) == [];
    hide Authorized, Lookup, Attempted, ExitZero;
    ids := [];
    for i := 0 to |rows|
      invariant ids + Authorized(rows[i..], kind, prog) == Authorized(rows, kind, prog)
    {
      ghost var rest := Authorized(rows[i + 1..], kind, prog);
      AuthorizedStep(rows, kind, prog, i);
      if !rows[i].alreadyApplied && ExitZero(Lookup(prog, Key(kind, rows[i].id))) {
        assert ids + ([rows[i].id] + rest) == (ids + [rows[i].id]) + rest;
        ids := ids + [rows[i].id];
      } else {
        assert [] + rest == rest;
      }
    }
    assert ids + [] == ids;
  }
}
