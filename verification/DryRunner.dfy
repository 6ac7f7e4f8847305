/** The dry-run command as the program runs it: rows mutated in memory, the
    pending stamp and every record saved as they are made. */
module DryRunner {
  import opened Common
  import opened DryRunLedger

  /** Spend is re-derived from the rows each time it is needed. */
  method ComputeSpend(rows: map<Id, Row>) returns (spent: real)
    ensures spent == Spend(rows)
  {
    spent := 0.0;
    var rest := rows;
    while rest != map[]
      invariant spent + Spend(rest) == Spend(rows)
      decreases |rest|
    {
      var id :| id in rest;
      SpendWithout(rest, id);
      spent := spent + CostOf(rest[id]);
      rest := rest - {id};
    }
  }

  class Runner {
    var disk: map<Id, Row>
    var envelopes: map<Id, Envelope>
    var log: seq<Event>
    var life: nat
    var rows: map<Id, Row>
    var code: Option<int>

    constructor (w: World)
      ensures Outside() == w && rows == w.disk && code == None
    {
      disk, envelopes, log, life := w.disk, w.envelopes, w.log, w.life;
      rows, code := w.disk, None;
    }

    function Outside(): World reads this { World(disk, envelopes, log, life) }

    function State(): Run reads this { Run(rows, Outside(), code) }

    method Note(e: Event)
      modifies this
      ensures State() == old(State().(w := DryRunLedger.Note(Outside(), e)))
    {
      if life > 0 { log := log + [e]; }
    }

    method SaveBatch()
      modifies this
      ensures State() == old(State().(w := Save(Outside(), rows)))
    {
      if life > 0 { disk, life := rows, life - 1; }
    }

    /** Fetch, then one paid extraction unless the meeting already has one. */
    method RunChild(id: Id, a: Attempt)
      modifies this
      ensures State() == old(State().(w := Child(Outside(), id, a)))
    {
      if life > 0 {
        var e := EnvelopeOf(Outside(), id);
        envelopes := envelopes[id := e.(source := e.source || a.fetched, fetchError := a.fetchError)];
        life := life - 1;
      }
      var e := EnvelopeOf(Outside(), id);
      if life > 0 && e.extraction.None? && e.source && e.fetchError.None? && a.cost.Some? {
        envelopes := envelopes[id := e.(extraction := Some(Extraction(a.stamp, a.cost.value)))];
        Note(Produced(id, Charge(a.cost.value)));
        life := life - 1;
      }
    }

    method AttemptMeeting(id: Id, a: Attempt)
      requires code == None
      modifies this
      ensures State() == old(RunAttempt(State(), id, a))
    {
      var spent := ComputeSpend(rows);
      Note(Started(id, spent));
      var row := RowOf(rows, id);
      if row.pending.None? {
        row := row.(pending := Some(StampOf(EnvelopeOf(Outside(), id))));
        rows := rows[id := row];
        SaveBatch();
      } else {
        rows := rows[id := row];
      }
      RunChild(id, a);
      var e := EnvelopeOf(Outside(), id);
      rows := rows[id := Row(Some(MakeRecord(e, a.rc, row.pending.value, row)), None)];
      Note(Completed(id, a.rc, PastFetch(e, a.rc), StampOf(e) != ""));
      SaveBatch();
    }

    /** A locked dry-run over the manifest, up to the end, the cap or an auth failure. */
    method DryRunLocked(ms: seq<ManifestRow>, cap: real, attempt: Id -> Attempt)
      requires rows == disk && code == None
      modifies this
      ensures State() == old(DryRun(ms, cap, attempt, Outside()))
    {
      ghost var start := State();
      var spent := ComputeSpend(rows);
      var i := 0;
      while i < |ms| && code == None
        invariant i <= |ms|
        invariant spent == Spend(rows)
        invariant DryRunRows(ms, i, cap, attempt, State()) == DryRunRows(ms, 0, cap, attempt, start)
      {
        var m := ms[i];
        var prior := RowOf(rows, m.id);
        if !m.alreadyApplied && !(prior.record.Some? && prior.record.value.exit == 0) {
          if spent > cap {
            code := Some(12);
          } else {
            var a := attempt(m.id);
            AttemptMeeting(m.id, a);
            spent := ComputeSpend(rows);
            if a.rc != 0 && EnvelopeOf(Outside(), m.id).fetchError == Some(Auth) {
              code := Some(2);
            } else if spent > cap {
              code := Some(12);
            }
          }
        }
        i := i + 1;
      }
    }
  }
}
