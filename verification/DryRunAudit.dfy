/** The ledger against an audit of what actually happened, over any sequence of
    dry-run invocations killed at any point. */
module DryRunAudit {
  import opened Common
  import opened DryRunLedger

  // ------------------------------------------------------------ the audit

  /** What was produced for `id` since its last completed attempt. */
  function Unsettled(log: seq<Event>, id: Id): real {
    if log == [] then 0.0
    else
      var front, e := log[..|log| - 1], log[|log| - 1];
      if e.id != id || e.Started? then Unsettled(front, id)
      else if e.Completed? then 0.0
      else Unsettled(front, id) + e.cost
  }

  /** True when an extraction was produced since the last completed attempt. */
  predicate Open(log: seq<Event>, id: Id) {
    log != [] &&
    var front, e := log[..|log| - 1], log[|log| - 1];
    if e.id != id || e.Started? then Open(front, id) else e.Produced?
  }

  /** Every production is charged by the first attempt completed after it, once;
      a failed attempt past the fetch that leaves no extraction costs NOMINAL. */
  function Charged(log: seq<Event>, id: Id): real {
    if log == [] then 0.0
    else
      var front, e := log[..|log| - 1], log[|log| - 1];
      if e.id != id || !e.Completed? then Charged(front, id)
      else Charged(front, id) + Unsettled(front, id) + (if e.rc != 0 && e.pastFetch && !e.extracted then NOMINAL else 0.0)
  }

  lemma AuditAppend(log: seq<Event>, e: Event, id: Id)
    ensures Charged(log + [e], id) ==
      Charged(log, id) + (if e.id == id && e.Completed?
                          then Unsettled(log, id) + (if e.rc != 0 && e.pastFetch && !e.extracted then NOMINAL else 0.0) else 0.0)
    ensures Unsettled(log + [e], id) ==
      if e.id != id || e.Started? then Unsettled(log, id) else if e.Completed? then 0.0 else Unsettled(log, id) + e.cost
    ensures Open(log + [e], id) == if e.id != id || e.Started? then Open(log, id) else e.Produced?
  {
    assert (log + [e])[..|log|] == log;
  }

  // ------------------------------------------------------------ the invariant

  /** The row of `id` agrees with the audit, and its pending stamp tells an
      extraction still to be charged from one already accounted for. */
  ghost predicate Agrees(w: World, id: Id) {
    var row, e := RowOf(w.disk, id), EnvelopeOf(w, id).extraction;
    && CostOf(row) == Charged(w.log, id)
    && (e.Some? ==> e.value.stamp != "")
    && (Open(w.log, id) ==> e.Some? && Charge(e.value.cost) == Unsettled(w.log, id) && row.pending == Some(""))
    && (!Open(w.log, id) ==> Unsettled(w.log, id) == 0.0 && (row.pending == None || row.pending == Some(StampOf(EnvelopeOf(w, id)))))
  }

  ghost predicate Audited(w: World) {
    forall id :: Agrees(w, id)
  }

  /** While the process lives its memory is what it last saved. */
  ghost predicate InSync(r: Run) {
    Audited(r.w) && (r.w.life > 0 ==> r.rows == r.w.disk)
  }

  // ------------------------------------------------------------ one attempt keeps it

  lemma StartKeeps(r: Run, id: Id, spent: real)
    requires InSync(r)
    ensures InSync(r.(w := Note(r.w, Started(id, spent))))
  {
    forall x ensures Agrees(Note(r.w, Started(id, spent)), x) {
      assert Agrees(r.w, x);
      AuditAppend(r.w.log, Started(id, spent), x);
    }
  }

  lemma PendKeeps(r: Run, id: Id)
    requires InSync(r)
    ensures var r' := Pend(r, id);
      InSync(r') && id in r'.rows && r'.rows[id].pending.Some? && CostOf(r'.rows[id]) == CostOf(RowOf(r.rows, id))
  {
    var r' := Pend(r, id);
    if r.w.life > 0 && RowOf(r.rows, id).pending.None? {
      forall x ensures Agrees(r'.w, x) {
        assert Agrees(r.w, x) && Agrees(r.w, id);
        assert EnvelopeOf(r'.w, x) == EnvelopeOf(r.w, x);
      }
    } else if r.w.life > 0 {
      assert r.rows[id := r.rows[id]] == r.rows;
    }
  }

  lemma ChildKeeps(w: World, id: Id, a: Attempt)
    requires Audited(w) && (w.life > 0 ==> RowOf(w.disk, id).pending.Some?)
    ensures var w' := Child(w, id, a); Audited(w') && w'.disk == w.disk && w'.life <= w.life
  {
    var e := EnvelopeOf(w, id);
    if w.life > 0 {
      var w1 := w.(envelopes := w.envelopes[id := e.(source := e.source || a.fetched, fetchError := a.fetchError)], life := w.life - 1);
      forall x ensures Agrees(w1, x) {
        assert Agrees(w, x);
        assert EnvelopeOf(w1, x).extraction == EnvelopeOf(w, x).extraction;
      }
      var w2 := Child(w, id, a);
      if w2 != w1 {
        forall x ensures Agrees(w2, x) {
          assert Agrees(w1, x);
          AuditAppend(w1.log, Produced(id, Charge(a.cost.value)), x);
          if x != id { assert EnvelopeOf(w2, x) == EnvelopeOf(w1, x); }
        }
      }
    }
  }

  lemma RecordKeeps(w: World, id: Id, rc: int)
    requires Audited(w) && id in w.disk && w.disk[id].pending.Some? && w.life > 0
    ensures var row, e := w.disk[id], EnvelopeOf(w, id);
      var rows := w.disk[id := Row(Some(MakeRecord(e, rc, row.pending.value, row)), None)];
      Audited(Save(Note(w, Completed(id, rc, PastFetch(e, rc), StampOf(e) != "")), rows))
  {
    var row, e := w.disk[id], EnvelopeOf(w, id);
    var rows := w.disk[id := Row(Some(MakeRecord(e, rc, row.pending.value, row)), None)];
    var done := Completed(id, rc, PastFetch(e, rc), StampOf(e) != "");
    var w' := Save(Note(w, done), rows);
    forall x ensures Agrees(w', x) {
      assert Agrees(w, x);
      AuditAppend(w.log, done, x);
      assert EnvelopeOf(w', x) == EnvelopeOf(w, x);
    }
  }

  lemma AttemptKeeps(r: Run, id: Id, a: Attempt)
    requires InSync(r)
    ensures InSync(RunAttempt(r, id, a))
  {
    var r0 := r.(w := Note(r.w, Started(id, Spend(r.rows))));
    StartKeeps(r, id, Spend(r.rows));
    PendKeeps(r0, id);
    var r1 := Pend(r0, id);
    ChildKeeps(r1.w, id, a);
    var w2 := Child(r1.w, id, a);
    if w2.life > 0 { RecordKeeps(w2, id, a.rc); }
  }

  lemma {:induction false} RowsKeep(ms: seq<ManifestRow>, i: nat, cap: real, attempt: Id -> Attempt, r: Run)
    requires i <= |ms| && InSync(r)
    ensures InSync(DryRunRows(ms, i, cap, attempt, r))
    decreases |ms| - i
  {
    if i < |ms| && r.code.None? {
      hide RunAttempt, Audited, Spend;
      if DryRunOne(ms[i], cap, attempt, r) != r { AttemptKeeps(r, ms[i].id, attempt(ms[i].id)); }
      RowsKeep(ms, i + 1, cap, attempt, DryRunOne(ms[i], cap, attempt, r));
    }
  }

  // ------------------------------------------------------------ campaigns

  /** One invocation: its cap, what the children would do, and when it dies. */
  datatype Invocation = Invocation(cap: real, attempt: Id -> Attempt, life: nat)

  ghost function Campaign(ms: seq<ManifestRow>, w: World, runs: seq<Invocation>): World
    decreases |runs|
  {
    if runs == [] then w
    else Campaign(ms, DryRun(ms, runs[0].cap, runs[0].attempt, w.(life := runs[0].life)).w, runs[1..])
  }

  /** Every extraction already on disk carries its stamp. */
  ghost predicate Stamped(envelopes: map<Id, Envelope>) {
    forall id :: id in envelopes && envelopes[id].extraction.Some? ==> envelopes[id].extraction.value.stamp != ""
  }

  ghost function Start(envelopes: map<Id, Envelope>): World {
    World(map[], envelopes, [], 0)
  }

  lemma {:induction false} CampaignKeeps(ms: seq<ManifestRow>, w: World, runs: seq<Invocation>)
    requires Audited(w)
    ensures Audited(Campaign(ms, w, runs))
    decreases |runs|
  {
    if runs != [] {
      var w0 := w.(life := runs[0].life);
      assert Audited(w0) by { forall id ensures Agrees(w0, id) { assert Agrees(w, id); } }
      RowsKeep(ms, 0, runs[0].cap, runs[0].attempt, Run(w0.disk, w0, None));
      CampaignKeeps(ms, DryRun(ms, runs[0].cap, runs[0].attempt, w0).w, runs[1..]);
    }
  }

  /** In every crash state of every campaign a row's cost is exactly what the
      audit charges it: each extraction produced in the batch once, an older one
      nothing, NOMINAL per completed failure past the fetch with no extraction. */
  lemma LedgerMatchesAudit(ms: seq<ManifestRow>, envelopes: map<Id, Envelope>, runs: seq<Invocation>, id: Id)
    requires Stamped(envelopes)
    ensures var w := Campaign(ms, Start(envelopes), runs);
      && CostOf(RowOf(w.disk, id)) == Charged(w.log, id)
      && (Open(w.log, id) ==> EnvelopeOf(w, id).extraction.Some? && RowOf(w.disk, id).pending == Some(""))
      && (!Open(w.log, id) ==> Unsettled(w.log, id) == 0.0)
  {
    assert Audited(Start(envelopes));
    CampaignKeeps(ms, Start(envelopes), runs);
    assert Agrees(Campaign(ms, Start(envelopes), runs), id);
  }

  // ------------------------------------------------------------ exactly once

  /** Completed failures past the fetch that left no extraction. */
  function NominalCount(log: seq<Event>, id: Id): nat {
    if log == [] then 0
    else
      var e := log[|log| - 1];
      NominalCount(log[..|log| - 1], id) + (if e.Completed? && e.id == id && e.rc != 0 && e.pastFetch && !e.extracted then 1 else 0)
  }

  predicate Pays(e: Event, id: Id) { e.Produced? && e.id == id }

  /** A meeting is paid for at most once, and then its extraction stays. */
  ghost predicate PaidOnce(w: World, id: Id) {
    && (forall i, j :: 0 <= i < |w.log| && 0 <= j < |w.log| && Pays(w.log[i], id) && Pays(w.log[j], id) ==> i == j)
    && (forall i :: 0 <= i < |w.log| && Pays(w.log[i], id) ==> EnvelopeOf(w, id).extraction.Some?)
  }

  /** The audit in closed form for a log that pays for `id` at most once. */
  lemma {:induction false} ChargedInClosedForm(log: seq<Event>, id: Id, k: nat)
    requires k <= |log| && (k < |log| ==> Pays(log[k], id))
    requires forall i :: 0 <= i < |log| && i != k ==> !Pays(log[i], id)
    ensures var c := if k < |log| then log[k].cost else 0.0;
      && Unsettled(log, id) == (if Open(log, id) then c else 0.0)
      && (k == |log| ==> !Open(log, id))
      && Charged(log, id) == (if Open(log, id) then 0.0 else c) + NominalCount(log, id) as real * NOMINAL
  {
    if log != [] {
      var front := log[..|log| - 1];
      ChargedInClosedForm(front, id, if k <= |front| then k else |front|);
    }
  }

  /** `older` tells whether the extraction of `x` predates the batch. */
  ghost predicate Paid(w: World, x: Id, older: bool) {
    PaidOnce(w, x) && (older ==> EnvelopeOf(w, x).extraction.Some? && forall i :: 0 <= i < |w.log| ==> !Pays(w.log[i], x))
  }

  lemma NotePaysOnce(w: World, e: Event, x: Id, older: bool)
    requires Paid(w, x, older) && !e.Produced?
    ensures Paid(Note(w, e), x, older)
  {}

  lemma ChildPaysOnce(w: World, id: Id, a: Attempt, x: Id, older: bool)
    requires Paid(w, x, older)
    ensures Paid(Child(w, id, a), x, older)
  {
    var e := EnvelopeOf(w, id);
    if w.life > 0 {
      var w1 := w.(envelopes := w.envelopes[id := e.(source := e.source || a.fetched, fetchError := a.fetchError)], life := w.life - 1);
      assert EnvelopeOf(w1, x).extraction == EnvelopeOf(w, x).extraction;
      assert Paid(w1, x, older);
      var w2 := Child(w, id, a);
      if w2 != w1 && x != id { assert EnvelopeOf(w2, x) == EnvelopeOf(w1, x); }
    }
  }

  lemma SavePaysOnce(w: World, rows: map<Id, Row>, x: Id, older: bool)
    requires Paid(w, x, older)
    ensures Paid(Save(w, rows), x, older)
  {}

  lemma AttemptPaysOnce(r: Run, id: Id, a: Attempt, x: Id, older: bool)
    requires Paid(r.w, x, older)
    ensures Paid(RunAttempt(r, id, a).w, x, older)
  {
    var r0 := r.(w := Note(r.w, Started(id, Spend(r.rows))));
    var r1 := Pend(r0, id);
    hide Paid, Note, Save, Child, Spend, MakeRecord, PastFetch;
    NotePaysOnce(r.w, Started(id, Spend(r.rows)), x, older);
    SavePaysOnce(r0.w, r1.rows, x, older);
    ChildPaysOnce(r1.w, id, a, x, older);
    var w2 := Child(r1.w, id, a);
    var done := Completed(id, a.rc, PastFetch(EnvelopeOf(w2, id), a.rc), StampOf(EnvelopeOf(w2, id)) != "");
    NotePaysOnce(w2, done, x, older);
    SavePaysOnce(Note(w2, done), RunAttempt(r, id, a).rows, x, older);
  }

  lemma {:induction false} RowsPayOnce(ms: seq<ManifestRow>, i: nat, cap: real, attempt: Id -> Attempt, r: Run, x: Id, older: bool)
    requires i <= |ms| && Paid(r.w, x, older)
    ensures Paid(DryRunRows(ms, i, cap, attempt, r).w, x, older)
    decreases |ms| - i
  {
    if i < |ms| && r.code.None? {
      hide RunAttempt, Paid, Spend;
      AttemptPaysOnce(r, ms[i].id, attempt(ms[i].id), x, older);
      RowsPayOnce(ms, i + 1, cap, attempt, DryRunOne(ms[i], cap, attempt, r), x, older);
    }
  }

  lemma {:induction false} CampaignPaysOnce(ms: seq<ManifestRow>, w: World, runs: seq<Invocation>, x: Id, older: bool)
    requires Paid(w, x, older)
    ensures Paid(Campaign(ms, w, runs), x, older)
    decreases |runs|
  {
    if runs != [] {
      var w0 := w.(life := runs[0].life);
      RowsPayOnce(ms, 0, runs[0].cap, runs[0].attempt, Run(w0.disk, w0, None), x, older);
      CampaignPaysOnce(ms, DryRun(ms, runs[0].cap, runs[0].attempt, w0).w, runs[1..], x, older);
    }
  }

  /** Exactly-once charging.  `k` is where the batch produced the extraction of
      `id`, or |log| when it never did: the measured cost is charged once as soon
      as an attempt completes after it, never twice and never for an extraction
      older than the batch; everything else charged is nominal. */
  lemma ChargedExactlyOnce(ms: seq<ManifestRow>, envelopes: map<Id, Envelope>, runs: seq<Invocation>, id: Id) returns (k: nat)
    requires Stamped(envelopes)
    ensures var w := Campaign(ms, Start(envelopes), runs);
      && k <= |w.log|
      && (k < |w.log| ==> Pays(w.log[k], id))
      && (forall i :: 0 <= i < |w.log| && i != k ==> !Pays(w.log[i], id))
      && (id in envelopes && envelopes[id].extraction.Some? ==> k == |w.log|)
      && CostOf(RowOf(w.disk, id)) ==
           (if k < |w.log| && !Open(w.log, id) then w.log[k].cost else 0.0) + NominalCount(w.log, id) as real * NOMINAL
  {
    var w := Campaign(ms, Start(envelopes), runs);
    CampaignPaysOnce(ms, Start(envelopes), runs, id, id in envelopes && envelopes[id].extraction.Some?);
    LedgerMatchesAudit(ms, envelopes, runs, id);
    if i :| 0 <= i < |w.log| && Pays(w.log[i], id) {
      k := i;
    } else {
      k := |w.log|;
    }
    ChargedInClosedForm(w.log, id, k);
  }

  // ------------------------------------------------------------ the stamp matters

  /** What a completed attempt adds to the row of a meeting whose extraction
      already existed: nothing exactly when that extraction is stamped, or is
      free and the attempt does not fail past the fetch. */
  lemma OlderExtractionIsFree(e: Envelope, rc: int, prior: Row)
    requires e.extraction.Some?
    ensures MakeRecord(e, rc, StampOf(e), prior).cost == CostOf(prior) <==>
      StampOf(e) != "" || (!(rc != 0 && PastFetch(e, rc)) && Charge(e.extraction.value.cost) == 0.0)
  {
    var charge := Charge(e.extraction.value.cost);
    assert NOMINAL > 0.0 && charge >= 0.0;
  }

  /** Without a stamp an extraction older than the batch is charged. */
  lemma UnstampedExtractionIsCharged()
    ensures var e := Envelope(true, None, Some(Extraction("", Usd(2.0))));
      MakeRecord(e, 0, StampOf(e), Row(None, None)).cost == 2.0
  {
    assert Charge(Usd(2.0)) == 2.0;
  }
}
