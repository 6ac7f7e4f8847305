/** The batch signature: one human signature over a published digest, fanned out
    to a marker per meeting, and the two gates that later read it.

    A hash is modelled by the bytes it is taken of.  `life` counts the writes a
    process still lives to make, so every crash point is a value of `life`. */
module BatchSign {
  import opened Common
  import DigestTable

  // ------------------------------------------------------------ the files of a batch

  datatype ManifestRow = ManifestRow(id: Id, kind: string, alreadyApplied: bool)
  datatype Manifest = Manifest(batchId: string, kind: string, rows: seq<ManifestRow>)

  datatype Key = Key(kind: string, id: Id)

  /** `exit` is absent for a malformed record. */
  datatype DryRun = DryRun(exit: Option<int>)
  datatype Entry = Entry(key: Key, dry: Option<DryRun>)

  /** batch-progress.json; `rows` in sorted key order. */
  datatype Progress = Progress(batchId: string, kind: string, rows: seq<Entry>, sampleIds: seq<Id>)

  /** batch-signed.json. */
  datatype Signed = Signed(batchId: string, digest: string, manifest: string, ids: seq<Id>, sampleIds: set<Id>,
                           signer: string, signedAt: string, unattempted: seq<Id>, fanout: bool)

  datatype Binding = Binding(batchId: string, digest: string)

  /** d09-signed.json: `binding` is absent on a marker signed for one meeting alone. */
  datatype Marker = Marker(signer: string, signedAt: string, capture: string, binding: Option<Binding>)

  datatype Disk = Disk(
    manifest: string,
    prog: Progress,
    digest: Option<string>,
    sidecar: Option<string>,     // the digest whose hash the sidecar records
    link: Option<string>,        // the digest that names the linked sample directory
    listing: map<Id, string>,    // the files of that directory
    captures: map<Id, string>,   // every meeting's own dry-run.txt
    signed: Option<Signed>,
    markers: map<Id, Marker>)

  /** Parsers and allow-lists that are not modelled further. */
  datatype Env = Env(parse: string -> Manifest, inOrder: seq<ManifestRow> -> bool,
                     headerCount: string -> Option<nat>, complete: string -> bool,
                     signerOk: string -> bool, dateOk: string -> bool)

  datatype Args = Args(batch: string, signer: string, signedAt: string, allowPartial: bool)

  // ------------------------------------------------------------ what both sides read

  predicate DistinctIds(rows: seq<ManifestRow>) {
    forall i, j :: 0 <= i < j < |rows| ==> rows[i].id != rows[j].id
  }

  predicate IsDict(rows: seq<Entry>) {
    forall i, j :: 0 <= i < j < |rows| ==> rows[i].key != rows[j].key
  }

  predicate Canonical(env: Env, m: Manifest) {
    DistinctIds(m.rows) && env.inOrder(m.rows) && forall i :: 0 <= i < |m.rows| ==> m.rows[i].kind == m.kind
  }

  function Lookup(rows: seq<Entry>, key: Key): Option<DryRun> {
    if rows == [] then None else if rows[0].key == key then rows[0].dry else Lookup(rows[1..], key)
  }

  predicate Attempted(d: Option<DryRun>) {
    d.Some? && d.value.exit.Some?
  }

  predicate ExitZero(d: Option<DryRun>) {
    d.Some? && d.value.exit == Some(0)
  }

  // ------------------------------------------------------------ the signer's readings

  function Unattempted(rows: seq<ManifestRow>, kind: string, prog: seq<Entry>): seq<Id> {
    if rows == [] then []
    else (if !rows[0].alreadyApplied && !Attempted(Lookup(prog, Key(kind, rows[0].id))) then [rows[0].id] else [])
         + Unattempted(rows[1..], kind, prog)
  }

  function AttemptedIds(prog: seq<Entry>, kind: string): set<Id> {
    set e | e in prog && e.key.kind == kind && Attempted(e.dry) :: e.key.id
  }

  /** Ids of the manifest rows that are not applied yet. */
  function Pending(rows: seq<ManifestRow>): set<Id> {
    set r | r in rows && !r.alreadyApplied :: r.id
  }

  /** The signer walks the progress file and keeps what the manifest names. */
  function Candidates(prog: seq<Entry>, pending: set<Id>): seq<Id> {
    if prog == [] then []
    else (if ExitZero(prog[0].dry) && prog[0].key.id in pending then [prog[0].key.id] else []) + Candidates(prog[1..], pending)
  }

  /** Apply walks the manifest and keeps what the progress file passed. */
  function Authorized(rows: seq<ManifestRow>, kind: string, prog: seq<Entry>): seq<Id> {
    if rows == [] then []
    else (if !rows[0].alreadyApplied && ExitZero(Lookup(prog, Key(kind, rows[0].id))) then [rows[0].id] else [])
         + Authorized(rows[1..], kind, prog)
  }

  // ------------------------------------------------------------ the signer

  /** The identity checks on the batch directory. */
  predicate BatchBound(env: Env, args: Args, d: Disk) {
    var m := env.parse(d.manifest);
    m.batchId == args.batch && d.prog.batchId == args.batch && d.prog.kind == m.kind && Canonical(env, m)
  }

  /** The digest is the published one, and it describes this progress file. */
  predicate DigestCurrent(env: Env, d: Disk) {
    var m := env.parse(d.manifest);
    && d.digest.Some? && d.sidecar == d.digest
    && DigestTable.RowIds(d.digest.value) == AttemptedIds(d.prog.rows, m.kind)
    && env.headerCount(d.digest.value) == Some(|Unattempted(m.rows, m.kind, d.prog.rows)|)
  }

  /** The linked sample is the one recorded, of the contracted size, and byte for
      byte the current captures. */
  predicate SampleCurrent(link: Option<string>, digest: string, listing: map<Id, string>, sampleIds: seq<Id>,
                          captures: map<Id, string>, candidates: seq<Id>) {
    && link == Some(digest)
    && (candidates != [] ==> listing.Keys != {})
    && multiset(sampleIds) == multiset(listing.Keys)
    && (forall id :: id in listing ==> id in candidates)
    && (forall id :: id in listing ==> id in captures && captures[id] == listing[id])
    && |sampleIds| == (if |candidates| < 10 then |candidates| else 10)
  }

  predicate CapturesComplete(env: Env, d: Disk, candidates: seq<Id>) {
    forall i :: 0 <= i < |candidates| ==> candidates[i] in d.captures && env.complete(d.captures[candidates[i]])
  }

  predicate SignAccepts(env: Env, args: Args, d: Disk) {
    var m := env.parse(d.manifest);
    var candidates := Candidates(d.prog.rows, Pending(m.rows));
    && BatchBound(env, args, d)
    && (Unattempted(m.rows, m.kind, d.prog.rows) == [] || args.allowPartial)
    && env.dateOk(args.signedAt) && env.signerOk(args.signer)
    && DigestCurrent(env, d)
    && (forall i :: 0 <= i < |d.prog.rows| ==> d.prog.rows[i].key.kind == m.kind)
    && SampleCurrent(d.link, d.digest.value, d.listing, d.prog.sampleIds, d.captures, candidates)
    && CapturesComplete(env, d, candidates)
  }

  function Record(env: Env, args: Args, d: Disk, fanout: bool): Signed
    requires d.digest.Some?
  {
    var m := env.parse(d.manifest);
    Signed(args.batch, d.digest.value, d.manifest, Candidates(d.prog.rows, Pending(m.rows)), d.listing.Keys,
           args.signer, args.signedAt, Unattempted(m.rows, m.kind, d.prog.rows), fanout)
  }

  datatype Event =
    | Accepted(args: Args, disk: Disk)                      // a signer passed every check on this disk
    | Launched(id: Id, batch: string, disk: Disk)           // apply started a meeting on this disk

  datatype World = World(disk: Disk, log: seq<Event>, life: nat)

  function WriteSigned(w: World, s: Signed): World {
    if w.life == 0 then w else w.(disk := w.disk.(signed := Some(s)), life := w.life - 1)
  }

  function WriteMarker(w: World, id: Id, m: Marker): World {
    if w.life == 0 then w else w.(disk := w.disk.(markers := w.disk.markers[id := m]), life := w.life - 1)
  }

  function MarkerFor(args: Args, d: Disk, id: Id): Marker
    requires d.digest.Some? && id in d.captures
  {
    Marker(args.signer, args.signedAt, d.captures[id], Some(Binding(args.batch, d.digest.value)))
  }

  function FanOut(args: Args, d: Disk, ids: seq<Id>, w: World): World
    requires d.digest.Some? && forall i :: 0 <= i < |ids| ==> ids[i] in d.captures
    decreases |ids|
  {
    if ids == [] then w else FanOut(args, d, ids[1..], WriteMarker(w, ids[0], MarkerFor(args, d, ids[0])))
  }

  function Sign(env: Env, args: Args, w: World): World {
    var d := w.disk;
    if !SignAccepts(env, args, d) then w
    else
      var m := env.parse(d.manifest);
      var w1 := WriteSigned(w.(log := w.log + [Accepted(args, d)]), Record(env, args, d, false));
      var w2 := FanOut(args, d, Candidates(d.prog.rows, Pending(m.rows)), w1);
      WriteSigned(w2, Record(env, args, d, true))
  }

  // ------------------------------------------------------------ the two gates

  predicate MarkerBound(d: Disk, s: Signed, id: Id) {
    && id in d.markers && d.markers[id].binding == Some(Binding(s.batchId, s.digest))
    && d.markers[id].signer == s.signer && d.markers[id].signedAt == s.signedAt
  }

  /** Apply's own preflight. */
  predicate Preflight(env: Env, batch: string, d: Disk) {
    var m := env.parse(d.manifest);
    var authorized := Authorized(m.rows, m.kind, d.prog.rows);
    && Canonical(env, m)
    && d.signed.Some? && d.digest.Some? && d.sidecar == d.digest && d.signed.value.digest == d.digest.value
    && d.signed.value.manifest == d.manifest && multiset(d.signed.value.ids) == multiset(authorized)
    && m.batchId == batch && d.prog.batchId == batch && d.signed.value.batchId == batch
    && d.signed.value.fanout
    && forall i :: 0 <= i < |authorized| ==> MarkerBound(d, d.signed.value, authorized[i])
  }

  /** The gate each launched meeting passes again on its own, from its marker. */
  predicate ChildAccepts(batch: string, id: Id, d: Disk) {
    && id in d.markers && d.markers[id].binding.Some?
    && d.markers[id].binding.value.batchId == batch
    && d.signed.Some? && d.signed.value.batchId == batch
    && d.signed.value.digest == d.markers[id].binding.value.digest
    && d.digest.Some? && d.sidecar == d.digest && d.signed.value.digest == d.digest.value
    && d.signed.value.manifest == d.manifest
    && d.markers[id].signer == d.signed.value.signer && d.markers[id].signedAt == d.signed.value.signedAt
    && id in d.signed.value.ids
    && d.signed.value.fanout
  }

  /** One launch costs one unit of life. */
  function Launch(w: World, batch: string, id: Id): World {
    if w.life == 0 then w else w.(log := w.log + [Launched(id, batch, w.disk)], life := w.life - 1)
  }

  function Launches(w: World, batch: string, ids: seq<Id>, todo: set<Id>): World
    decreases |ids|
  {
    if ids == [] then w
    else Launches(if ids[0] in todo then Launch(w, batch, ids[0]) else w, batch, ids[1..], todo)
  }

  /** An apply run: refuse, or launch those authorized meetings still to do. */
  function Apply(env: Env, batch: string, todo: set<Id>, w: World): World {
    if !Preflight(env, batch, w.disk) then w
    else
      var m := env.parse(w.disk.manifest);
      Launches(w, batch, Authorized(m.rows, m.kind, w.disk.prog.rows), todo)
  }
}
