/** The budget guard of one dry-run, and what a dry-run leaves untouched. */
module DryRunBudget {
  import opened Common
  import opened DryRunLedger

  /** No single attempt of this run can be charged more than `m`. */
  ghost predicate ChargesWithin(w: World, attempt: Id -> Attempt, m: real) {
    && NOMINAL <= m
    && (forall id :: attempt(id).cost.Some? ==> Charge(attempt(id).cost.value) <= m)
    && (forall id :: EnvelopeOf(w, id).extraction.Some? ==> Charge(EnvelopeOf(w, id).extraction.value.cost) <= m)
  }

  /** Rows may follow: no cost falls and a successful row keeps its record. */
  ghost predicate RowsLater(rows: map<Id, Row>, rows': map<Id, Row>) {
    && (forall id :: CostOf(RowOf(rows, id)) <= CostOf(RowOf(rows', id)))
    && (forall id :: Settled(rows, id) ==> RowOf(rows', id) == RowOf(rows, id))
  }

  predicate Settled(rows: map<Id, Row>, id: Id) {
    RowOf(rows, id).record.Some? && RowOf(rows, id).record.value.exit == 0
  }

  /** Attempts start only within the cap and only on rows not yet successful. */
  ghost predicate StartsWithin(log: seq<Event>, from: nat, cap: real, settled: map<Id, Row>) {
    forall k :: from <= k < |log| && log[k].Started? ==> log[k].spent <= cap && !Settled(settled, log[k].id)
  }

  /** A run in flight that started from `w` under `cap`. */
  ghost predicate Within(w: World, r: Run, cap: real, attempt: Id -> Attempt, m: real) {
    var bound := if Spend(w.disk) > cap + m then Spend(w.disk) else cap + m;
    && RowsLater(w.disk, r.rows) && RowsLater(w.disk, r.w.disk)
    && Spend(r.rows) <= bound && Spend(r.w.disk) <= bound
    && ChargesWithin(r.w, attempt, m)
    && |w.log| <= |r.w.log| && w.log == r.w.log[..|w.log|]
    && StartsWithin(r.w.log, |w.log|, cap, w.disk)
  }

  lemma RecordCost(e: Envelope, rc: int, stamp: string, prior: Row, m: real)
    requires NOMINAL <= m && (e.extraction.Some? ==> Charge(e.extraction.value.cost) <= m)
    ensures CostOf(prior) <= MakeRecord(e, rc, stamp, prior).cost <= CostOf(prior) + m
  {}

  lemma SameEnvelopes(w: World, w': World, attempt: Id -> Attempt, m: real)
    requires ChargesWithin(w, attempt, m) && w'.envelopes == w.envelopes
    ensures ChargesWithin(w', attempt, m)
  {
    assert forall id :: EnvelopeOf(w', id) == EnvelopeOf(w, id);
  }

  lemma ChildWithin(w: World, id: Id, a: Attempt, attempt: Id -> Attempt, m: real)
    requires ChargesWithin(w, attempt, m) && a == attempt(id)
    ensures var w' := Child(w, id, a);
      && ChargesWithin(w', attempt, m) && w'.disk == w.disk && w.log <= w'.log
      && forall k :: |w.log| <= k < |w'.log| ==> !w'.log[k].Started?
  {
    var w' := Child(w, id, a);
    forall x ensures EnvelopeOf(w', x).extraction == EnvelopeOf(w, x).extraction
                  || EnvelopeOf(w', x).extraction == (if a.cost.Some? then Some(Extraction(a.stamp, a.cost.value)) else None) {}
  }

  /** An attempt changes one row, and only to cost more, by at most `m`. */
  lemma AttemptRows(r: Run, id: Id, attempt: Id -> Attempt, m: real)
    requires ChargesWithin(r.w, attempt, m)
    ensures var r' := RunAttempt(r, id, attempt(id));
      && id in r'.rows && r'.rows == r.rows[id := r'.rows[id]]
      && CostOf(RowOf(r.rows, id)) <= CostOf(r'.rows[id]) <= CostOf(RowOf(r.rows, id)) + m
      && ChargesWithin(r'.w, attempt, m)
  {
    var r1 := Pend(r.(w := Note(r.w, Started(id, Spend(r.rows)))), id);
    SameEnvelopes(r.w, r1.w, attempt, m);
    ChildWithin(r1.w, id, attempt(id), attempt, m);
    var w2 := Child(r1.w, id, attempt(id));
    RecordCost(EnvelopeOf(w2, id), attempt(id).rc, r1.rows[id].pending.value, r1.rows[id], m);
    var r' := RunAttempt(r, id, attempt(id));
    SameEnvelopes(w2, r'.w, attempt, m);
  }

  /** What an attempt saves: nothing, the pending stamp, or the finished row. */
  lemma AttemptSaves(r: Run, id: Id, a: Attempt)
    ensures var r' := RunAttempt(r, id, a); var row := RowOf(r.rows, id);
      r'.w.disk == r.w.disk || r'.w.disk == r'.rows
      || exists pending :: r'.w.disk == r.rows[id := row.(pending := pending)]
  {
    var r1 := Pend(r.(w := Note(r.w, Started(id, Spend(r.rows)))), id);
    assert r1.rows == r.rows[id := RowOf(r.rows, id).(pending := r1.rows[id].pending)];
    assert Child(r1.w, id, a).disk == r1.w.disk;
  }

  lemma AttemptLogs(r: Run, id: Id, attempt: Id -> Attempt, m: real)
    requires ChargesWithin(r.w, attempt, m)
    ensures var log := RunAttempt(r, id, attempt(id)).w.log;
      r.w.log <= log && forall k :: |r.w.log| <= k < |log| && log[k].Started? ==> log[k] == Started(id, Spend(r.rows))
  {
    hide MakeRecord, Spend, Child, ChargesWithin, PastFetch;
    var w0 := Note(r.w, Started(id, Spend(r.rows)));
    var r1 := Pend(r.(w := w0), id);
    assert r1.w.log == w0.log;
    SameEnvelopes(r.w, r1.w, attempt, m);
    ChildWithin(r1.w, id, attempt(id), attempt, m);
  }

  lemma OneRowLater(rows: map<Id, Row>, id: Id, row: Row)
    requires CostOf(RowOf(rows, id)) <= CostOf(row) && !Settled(rows, id)
    ensures RowsLater(rows, rows[id := row])
  {}

  lemma AttemptWithin(w: World, r: Run, id: Id, cap: real, attempt: Id -> Attempt, m: real)
    requires Within(w, r, cap, attempt, m) && Spend(r.rows) <= cap && !Settled(r.rows, id)
    ensures Within(w, RunAttempt(r, id, attempt(id)), cap, attempt, m)
  {
    var r' := RunAttempt(r, id, attempt(id));
    AttemptRows(r, id, attempt, m);
    AttemptSaves(r, id, attempt(id));
    AttemptLogs(r, id, attempt, m);
    SpendUpdate(r.rows, id, r'.rows[id]);
    OneRowLater(r.rows, id, r'.rows[id]);
    if pending :| r'.w.disk == r.rows[id := RowOf(r.rows, id).(pending := pending)] {
      OneRowLater(r.rows, id, RowOf(r.rows, id).(pending := pending));
      SpendUpdate(r.rows, id, RowOf(r.rows, id).(pending := pending));
    }
    assert RowsLater(w.disk, r'.w.disk);
    assert !Settled(w.disk, id);
    assert StartsWithin(r'.w.log, |w.log|, cap, w.disk);
  }

  lemma OnlyTheCode(w: World, r: Run, r': Run, cap: real, attempt: Id -> Attempt, m: real)
    requires Within(w, r, cap, attempt, m) && r'.rows == r.rows && r'.w == r.w
    ensures Within(w, r', cap, attempt, m)
  {}

  /** One row is left alone, or attempted within the cap while it is not successful. */
  lemma OneRowCases(mr: ManifestRow, cap: real, attempt: Id -> Attempt, r: Run)
    ensures var r' := DryRunOne(mr, cap, attempt, r); var done := RunAttempt(r, mr.id, attempt(mr.id));
      || (r'.rows == r.rows && r'.w == r.w)
      || (Spend(r.rows) <= cap && !Settled(r.rows, mr.id) && r'.rows == done.rows && r'.w == done.w)
  {
    hide RunAttempt, Spend, EnvelopeOf;
  }

  lemma OneRowWithin(w: World, mr: ManifestRow, cap: real, attempt: Id -> Attempt, r: Run, m: real)
    requires Within(w, r, cap, attempt, m)
    ensures Within(w, DryRunOne(mr, cap, attempt, r), cap, attempt, m)
  {
    hide *;
    OneRowCases(mr, cap, attempt, r);
    var r' := DryRunOne(mr, cap, attempt, r);
    if r'.rows == r.rows && r'.w == r.w {
      OnlyTheCode(w, r, r', cap, attempt, m);
    } else {
      AttemptWithin(w, r, mr.id, cap, attempt, m);
      OnlyTheCode(w, RunAttempt(r, mr.id, attempt(mr.id)), r', cap, attempt, m);
    }
  }

  lemma {:induction false} RowsWithin(w: World, ms: seq<ManifestRow>, i: nat, cap: real, attempt: Id -> Attempt, r: Run, m: real)
    requires i <= |ms| && Within(w, r, cap, attempt, m)
    ensures Within(w, DryRunRows(ms, i, cap, attempt, r), cap, attempt, m)
    decreases |ms| - i
  {
    hide Within, DryRunOne;
    if i < |ms| && r.code.None? {
      OneRowWithin(w, ms[i], cap, attempt, r, m);
      RowsWithin(w, ms, i + 1, cap, attempt, DryRunOne(ms[i], cap, attempt, r), m);
    }
  }

  /** The budget of one dry-run, wherever it is killed: no row's cost falls, a
      successful row is never attempted again, no attempt starts once spend
      exceeds the cap, and spend ends at most one charge above it. */
  lemma BudgetHolds(ms: seq<ManifestRow>, cap: real, attempt: Id -> Attempt, w: World, m: real)
    requires ChargesWithin(w, attempt, m)
    ensures var w' := DryRun(ms, cap, attempt, w).w;
      && RowsLater(w.disk, w'.disk)
      && StartsWithin(w'.log, |w.log|, cap, w.disk)
      && Spend(w'.disk) <= (if Spend(w.disk) > cap + m then Spend(w.disk) else cap + m)
  {
    assert 0.0 < NOMINAL <= m;
    RowsWithin(w, ms, 0, cap, attempt, Run(w.disk, w, None), m);
  }

  /** A run that halts for budget spends nothing more when run again. */
  lemma HaltedStaysHalted(ms: seq<ManifestRow>, cap: real, attempt: Id -> Attempt, w: World)
    requires Spend(w.disk) > cap
    ensures var r := DryRun(ms, cap, attempt, w); r.w == w && r.rows == w.disk
  {
    HaltsAtOnce(ms, 0, cap, attempt, Run(w.disk, w, None));
  }

  lemma {:induction false} HaltsAtOnce(ms: seq<ManifestRow>, i: nat, cap: real, attempt: Id -> Attempt, r: Run)
    requires i <= |ms| && Spend(r.rows) > cap
    ensures var r' := DryRunRows(ms, i, cap, attempt, r); r'.w == r.w && r'.rows == r.rows
    decreases |ms| - i
  {
    if i < |ms| && r.code.None? { HaltsAtOnce(ms, i + 1, cap, attempt, DryRunOne(ms[i], cap, attempt, r)); }
  }
}
