/** The dry-run command of the backfill batch and its spend ledger.

    One attempt runs the meeting loop in a child: fetch, one paid extraction
    (only when no extraction.json exists yet), then free downstream steps.  The
    stamp of the extraction found before the attempt is saved first, so that a
    resumed attempt can still tell its own extraction from an older one.  Crashes
    are modelled as in BatchApply: `life` counts the writes still to happen. */
module DryRunLedger {
  import opened Common

  const NOMINAL: real := 0.3603328

  /** extraction.json's cost_usd: a number, or something that is not a usable one. */
  datatype Cost = Usd(amount: real) | Unusable

  /** A stamp written by the extractor is never empty. */
  type Stamp = s: string | s != "" witness "t"

  /** `stamp` is empty for a document without `extracted_at`. */
  datatype Extraction = Extraction(stamp: string, cost: Cost)

  datatype FetchError = Auth | OtherError

  /** A meeting's envelope directory. */
  datatype Envelope = Envelope(source: bool, fetchError: Option<FetchError>, extraction: Option<Extraction>)

  /** What one child would do if nothing killed it. */
  datatype Attempt = Attempt(fetched: bool, fetchError: Option<FetchError>, stamp: Stamp, cost: Option<Cost>, rc: int)

  datatype Record = Record(exit: int, cost: real, reused: bool, nominal: bool, attempts: nat)

  datatype Row = Row(record: Option<Record>, pending: Option<string>)

  datatype Event =
    | Started(id: Id, spent: real)
    | Produced(id: Id, cost: real)
    | Completed(id: Id, rc: int, pastFetch: bool, extracted: bool)

  datatype World = World(disk: map<Id, Row>, envelopes: map<Id, Envelope>, log: seq<Event>, life: nat)

  // ------------------------------------------------------------ what a row is charged

  /** A cost that is missing, corrupt or negative charges nothing. */
  function Charge(c: Cost): real {
    if c.Usd? && c.amount >= 0.0 then c.amount else 0.0
  }

  function EnvelopeOf(w: World, id: Id): Envelope {
    if id in w.envelopes then w.envelopes[id] else Envelope(false, None, None)
  }

  function StampOf(e: Envelope): string {
    if e.extraction.Some? then e.extraction.value.stamp else ""
  }

  function RowOf(rows: map<Id, Row>, id: Id): Row {
    if id in rows then rows[id] else Row(None, None)
  }

  function CostOf(row: Row): real {
    if row.record.Some? then row.record.value.cost else 0.0
  }

  predicate RealFetchError(e: Envelope, rc: int) {
    rc != 0 && e.fetchError.Some?
  }

  predicate PastFetch(e: Envelope, rc: int) {
    e.source && !RealFetchError(e, rc)
  }

  /** The record of a completed attempt that found `stampBefore` and left `e`. */
  function MakeRecord(e: Envelope, rc: int, stampBefore: string, prior: Row): Record {
    var measured := if e.extraction.Some? then Charge(e.extraction.value.cost) else 0.0;
    var stamp := StampOf(e);
    var reused := stamp != "" && stamp == stampBefore;
    var nominal := rc != 0 && PastFetch(e, rc) && stamp == "" && stampBefore == "";
    var added := if nominal then NOMINAL else if reused then 0.0 else measured;
    var attempts := if prior.record.Some? then prior.record.value.attempts else 0;
    Record(rc, CostOf(prior) + added, reused, nominal, attempts + 1)
  }

  // ------------------------------------------------------------ spend

  /** The ledger total, always derived from the rows. */
  ghost function Spend(rows: map<Id, Row>): real
    decreases |rows|
  {
    if rows == map[] then 0.0 else var id :| id in rows; CostOf(rows[id]) + Spend(rows - {id})
  }

  lemma {:induction false} SpendWithout(rows: map<Id, Row>, id: Id)
    requires id in rows
    ensures Spend(rows) == CostOf(rows[id]) + Spend(rows - {id})
    decreases |rows|
  {
    var k :| k in rows && Spend(rows) == CostOf(rows[k]) + Spend(rows - {k});
    if k != id {
      SpendWithout(rows - {k}, id);
      SpendWithout(rows - {id}, k);
      assert rows - {k} - {id} == rows - {id} - {k};
    }
  }

  lemma SpendUpdate(rows: map<Id, Row>, id: Id, row: Row)
    ensures Spend(rows[id := row]) == Spend(rows) - CostOf(RowOf(rows, id)) + CostOf(row)
  {
    SpendWithout(rows[id := row], id);
    assert rows[id := row] - {id} == rows - {id};
    if id in rows { SpendWithout(rows, id); } else { assert rows - {id} == rows; }
  }

  // ------------------------------------------------------------ one attempt

  /** The child: fetch, then the paid call unless an extraction is already there. */
  function Child(w: World, id: Id, a: Attempt): World {
    var e := EnvelopeOf(w, id);
    var w1 := if w.life == 0 then w
              else w.(envelopes := w.envelopes[id := e.(source := e.source || a.fetched, fetchError := a.fetchError)], life := w.life - 1);
    var e1 := EnvelopeOf(w1, id);
    if w1.life == 0 || e1.extraction.Some? || !e1.source || e1.fetchError.Some? || a.cost.None? then w1
    else w1.(envelopes := w1.envelopes[id := e1.(extraction := Some(Extraction(a.stamp, a.cost.value)))],
             log := w1.log + [Produced(id, Charge(a.cost.value))], life := w1.life - 1)
  }

  /** A run in flight; `code` is set when the run stops early. */
  datatype Run = Run(rows: map<Id, Row>, w: World, code: Option<int>)

  function Note(w: World, e: Event): World {
    if w.life == 0 then w else w.(log := w.log + [e])
  }

  function Save(w: World, rows: map<Id, Row>): World {
    if w.life == 0 then w else w.(disk := rows, life := w.life - 1)
  }

  /** Make sure the stamp found before the attempt is on disk. */
  function Pend(r: Run, id: Id): Run {
    var row := RowOf(r.rows, id);
    if row.pending.Some? then r.(rows := r.rows[id := row])
    else
      var rows := r.rows[id := row.(pending := Some(StampOf(EnvelopeOf(r.w, id))))];
      r.(rows := rows, w := Save(r.w, rows))
  }

  ghost function RunAttempt(r: Run, id: Id, a: Attempt): Run {
    var r1 := Pend(r.(w := Note(r.w, Started(id, Spend(r.rows)))), id);
    var row := r1.rows[id];
    var w2 := Child(r1.w, id, a);
    var e := EnvelopeOf(w2, id);
    var rec := MakeRecord(e, a.rc, row.pending.value, row);
    var rows := r1.rows[id := Row(Some(rec), None)];
    Run(rows, Save(Note(w2, Completed(id, a.rc, PastFetch(e, a.rc), StampOf(e) != "")), rows), None)
  }

  // ------------------------------------------------------------ one dry-run

  datatype ManifestRow = ManifestRow(id: Id, alreadyApplied: bool)

  /** One meeting of the manifest: skip it, halt before it, or attempt it. */
  ghost function DryRunOne(m: ManifestRow, cap: real, attempt: Id -> Attempt, r: Run): Run {
    var prior := RowOf(r.rows, m.id);
    if m.alreadyApplied || (prior.record.Some? && prior.record.value.exit == 0) then r
    else if Spend(r.rows) > cap then r.(code := Some(12))
    else
      var a := attempt(m.id);
      var r1 := RunAttempt(r, m.id, a);
      if a.rc != 0 && EnvelopeOf(r1.w, m.id).fetchError == Some(Auth) then r1.(code := Some(2))
      else if Spend(r1.rows) > cap then r1.(code := Some(12))
      else r1
  }

  ghost function DryRunRows(ms: seq<ManifestRow>, i: nat, cap: real, attempt: Id -> Attempt, r: Run): Run
    requires i <= |ms|
    decreases |ms| - i
  {
    if i == |ms| || r.code.Some? then r
    else DryRunRows(ms, i + 1, cap, attempt, DryRunOne(ms[i], cap, attempt, r))
  }

  ghost function DryRun(ms: seq<ManifestRow>, cap: real, attempt: Id -> Attempt, w: World): Run {
    DryRunRows(ms, 0, cap, attempt, Run(w.disk, w, None))
  }
}
