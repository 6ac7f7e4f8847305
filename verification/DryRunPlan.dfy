/** What a row says of its meeting's attempts, and which meetings a dry-run attempts. */
module DryRunPlan {
  import opened Common
  import opened DryRunLedger
  import opened DryRunAudit

  // ------------------------------------------------------------ the row is the last attempt

  /** The last completed attempt of a meeting. */
  function LastAttempt(log: seq<Event>, id: Id): (last: Option<Event>)
    ensures last.Some? ==> last.value.Completed?
  {
    if log == [] then None
    else
      var e := log[|log| - 1];
      if e.Completed? && e.id == id then Some(e) else LastAttempt(log[..|log| - 1], id)
  }

  /** Whether that attempt left an extraction that was there and paid for before it. */
  predicate LastReused(log: seq<Event>, id: Id) {
    log != [] &&
    var e := log[|log| - 1];
    if e.Completed? && e.id == id then e.extracted && !Open(log[..|log| - 1], id) else LastReused(log[..|log| - 1], id)
  }

  function AttemptCount(log: seq<Event>, id: Id): nat {
    if log == [] then 0
    else
      var e := log[|log| - 1];
      AttemptCount(log[..|log| - 1], id) + if e.Completed? && e.id == id then 1 else 0
  }

  /** Record by record: exit code, attempts, and whether the charge was nominal or none. */
  ghost predicate Told(w: World, id: Id) {
    var record := RowOf(w.disk, id).record;
    match LastAttempt(w.log, id)
    case None => record.None?
    case Some(e) =>
      && record.Some? && record.value.exit == e.rc && record.value.attempts == AttemptCount(w.log, id)
      && (record.value.nominal <==> e.rc != 0 && e.pastFetch && !e.extracted)
      && (record.value.reused <==> LastReused(w.log, id))
  }

  lemma LastAppend(log: seq<Event>, e: Event, id: Id)
    ensures LastAttempt(log + [e], id) == if e.Completed? && e.id == id then Some(e) else LastAttempt(log, id)
    ensures LastReused(log + [e], id) <==> if e.Completed? && e.id == id then e.extracted && !Open(log, id) else LastReused(log, id)
    ensures AttemptCount(log + [e], id) == AttemptCount(log, id) + if e.Completed? && e.id == id then 1 else 0
  {
    assert (log + [e])[..|log|] == log;
  }

  lemma {:induction false} AttemptsCounted(log: seq<Event>, id: Id)
    ensures LastAttempt(log, id).None? ==> AttemptCount(log, id) == 0
  {
    if log != [] { AttemptsCounted(log[..|log| - 1], id); }
  }

  lemma SpeechKeepsTold(w: World, e: Event, x: Id)
    requires Told(w, x) && !e.Completed?
    ensures Told(Note(w, e), x)
  {
    LastAppend(w.log, e, x);
  }

  lemma PendKeepsTold(r: Run, id: Id, x: Id)
    requires Told(r.w, x) && (r.w.life > 0 ==> r.rows == r.w.disk)
    ensures Told(Pend(r, id).w, x)
  {}

  lemma ChildKeepsTold(w: World, id: Id, a: Attempt, x: Id)
    requires Told(w, x)
    ensures Told(Child(w, id, a), x) && Child(w, id, a).disk == w.disk
  {
    if a.cost.Some? { LastAppend(w.log, Produced(id, Charge(a.cost.value)), x); }
  }

  lemma RecordTells(w: World, id: Id, rc: int, x: Id)
    requires Audited(w) && Told(w, id) && Told(w, x) && id in w.disk && w.disk[id].pending.Some? && w.life > 0
    ensures var row, e := w.disk[id], EnvelopeOf(w, id);
      var rows := w.disk[id := Row(Some(MakeRecord(e, rc, row.pending.value, row)), None)];
      Told(Save(Note(w, Completed(id, rc, PastFetch(e, rc), StampOf(e) != "")), rows), x)
  {
    assert Agrees(w, id);
    LastAppend(w.log, Completed(id, rc, PastFetch(EnvelopeOf(w, id), rc), StampOf(EnvelopeOf(w, id)) != ""), x);
    AttemptsCounted(w.log, id);
  }

  lemma AttemptTells(r: Run, id: Id, a: Attempt, x: Id)
    requires InSync(r) && Told(r.w, id) && Told(r.w, x)
    ensures Told(RunAttempt(r, id, a).w, x)
  {
    var r0 := r.(w := Note(r.w, Started(id, Spend(r.rows))));
    StartKeeps(r, id, Spend(r.rows));
    PendKeeps(r0, id);
    var r1 := Pend(r0, id);
    ChildKeeps(r1.w, id, a);
    var w2 := Child(r1.w, id, a);
    forall y | y == id || y == x ensures Told(w2, y) {
      SpeechKeepsTold(r.w, Started(id, Spend(r.rows)), y);
      PendKeepsTold(r0, id, y);
      ChildKeepsTold(r1.w, id, a, y);
    }
    hide Told, Audited;
    if w2.life > 0 { RecordTells(w2, id, a.rc, x); }
  }

  ghost predicate AllTold(w: World) {
    forall id :: Told(w, id)
  }

  lemma {:induction false} RowsTell(ms: seq<ManifestRow>, i: nat, cap: real, attempt: Id -> Attempt, r: Run)
    requires i <= |ms| && InSync(r) && AllTold(r.w)
    ensures AllTold(DryRunRows(ms, i, cap, attempt, r).w)
    decreases |ms| - i
  {
    if i < |ms| && r.code.None? {
      var r' := DryRunOne(ms[i], cap, attempt, r);
      forall x ensures Told(r'.w, x) { AttemptTells(r, ms[i].id, attempt(ms[i].id), x); }
      AttemptKeeps(r, ms[i].id, attempt(ms[i].id));
      hide RunAttempt, Told, Audited, Spend;
      RowsTell(ms, i + 1, cap, attempt, r');
    }
  }

  lemma {:induction false} CampaignTells(ms: seq<ManifestRow>, w: World, runs: seq<Invocation>)
    requires Audited(w) && AllTold(w)
    ensures AllTold(Campaign(ms, w, runs))
    decreases |runs|
  {
    if runs != [] {
      var w0 := w.(life := runs[0].life);
      assert Audited(w0) by { forall id ensures Agrees(w0, id) { assert Agrees(w, id); } }
      assert AllTold(w0) by { forall id ensures Told(w0, id) { assert Told(w, id); } }
      RowsTell(ms, 0, runs[0].cap, runs[0].attempt, Run(w0.disk, w0, None));
      RowsKeep(ms, 0, runs[0].cap, runs[0].attempt, Run(w0.disk, w0, None));
      CampaignTells(ms, DryRun(ms, runs[0].cap, runs[0].attempt, w0).w, runs[1..]);
    }
  }

  /** In every crash state of every campaign a row records its meeting's last completed
      attempt: the exit code of that child, how many attempts there were, a nominal
      charge exactly for a failure past the fetch without an extraction, and a reuse
      exactly for an extraction that was paid for before. */
  lemma RowIsLastAttempt(ms: seq<ManifestRow>, envelopes: map<Id, Envelope>, runs: seq<Invocation>, id: Id)
    requires Stamped(envelopes)
    ensures Told(Campaign(ms, Start(envelopes), runs), id)
  {
    assert Audited(Start(envelopes)) && AllTold(Start(envelopes));
    CampaignTells(ms, Start(envelopes), runs);
  }

  // ------------------------------------------------------------ one attempt

  /** The child gets to a paid extraction that it writes down: fetched, no error in the
      fetch, none there before. */
  predicate Pays(e: Envelope, a: Attempt) {
    (e.source || a.fetched) && a.fetchError.None? && e.extraction.None? && a.cost.Some?
  }

  function Extracted(e: Envelope, a: Attempt): Option<Extraction> {
    if Pays(e, a) then Some(Extraction(a.stamp, a.cost.value)) else e.extraction
  }

  /** The stamp on record of what was there before: that of an interrupted attempt, else
      that of the extraction now. */
  function StampBefore(row: Row, e: Envelope): string {
    if row.pending.Some? then row.pending.value else if e.extraction.Some? then e.extraction.value.stamp else ""
  }

  /** What an attempt costs: the nominal charge for a failure past the fetch that neither
      found nor left a stamped extraction, nothing for one with the stamp it had, else what
      the extraction says, if that is a usable number. */
  function Price(row: Row, e: Envelope, a: Attempt): real {
    var x := Extracted(e, a);
    var unstamped := x.None? || x.value.stamp == "";
    if a.rc != 0 && (e.source || a.fetched) && a.fetchError.None? && unstamped && StampBefore(row, e) == "" then 0.3603328
    else if x.None? || (!unstamped && x.value.stamp == StampBefore(row, e)) then 0.0
    else match x.value.cost
      case Usd(amount) => if amount > 0.0 then amount else 0.0
      case Unusable => 0.0
  }

  /** An attempt that is not killed leaves its envelope as the child left it and its row
      with this price added, and touches no other meeting. */
  lemma AttemptLeaves(r: Run, id: Id, a: Attempt)
    requires RunAttempt(r, id, a).w.life > 0
    ensures var r', e, row := RunAttempt(r, id, a), EnvelopeOf(r.w, id), RowOf(r.rows, id);
      && EnvelopeOf(r'.w, id) == Envelope(e.source || a.fetched, a.fetchError, Extracted(e, a))
      && CostOf(RowOf(r'.rows, id)) == CostOf(row) + Price(row, e, a) && RowOf(r'.rows, id).pending.None?
      && r'.w.disk == r'.rows
      && forall x :: x != id ==> EnvelopeOf(r'.w, x) == EnvelopeOf(r.w, x) && RowOf(r'.rows, x) == RowOf(r.rows, x)
  {}

  // ------------------------------------------------------------ which meetings are attempted

  predicate Unique(ms: seq<ManifestRow>) {
    forall i, j :: 0 <= i < j < |ms| ==> ms[i].id != ms[j].id
  }

  /** Manifest order, without what is applied already or has a successful dry-run. */
  function Due(ms: seq<ManifestRow>, rows: map<Id, Row>): seq<Id> {
    if ms == [] then []
    else
      var record := RowOf(rows, ms[0].id).record;
      (if ms[0].alreadyApplied || (record.Some? && record.value.exit == 0) then [] else [ms[0].id]) + Due(ms[1..], rows)
  }

  /** The meetings attempted, in order. */
  function Attempted(log: seq<Event>): seq<Id> {
    if log == [] then []
    else Attempted(log[..|log| - 1]) + if log[|log| - 1].Started? then [log[|log| - 1].id] else []
  }

  lemma AttemptedAppend(log: seq<Event>, e: Event)
    ensures Attempted(log + [e]) == Attempted(log) + if e.Started? then [e.id] else []
  {
    assert (log + [e])[..|log|] == log;
  }

  lemma {:induction false} DueElsewhere(ms: seq<ManifestRow>, rows: map<Id, Row>, rows': map<Id, Row>, id: Id)
    requires (forall x :: x != id ==> RowOf(rows', x) == RowOf(rows, x)) && forall k :: 0 <= k < |ms| ==> ms[k].id != id
    ensures Due(ms, rows') == Due(ms, rows)
    decreases |ms|
  {
    if ms != [] {
      assert forall k :: 0 <= k < |ms[1..]| ==> ms[1..][k] == ms[k + 1];
      DueElsewhere(ms[1..], rows, rows', id);
    }
  }

  /** An attempt notes its start, changes its own row only, and records its child's code. */
  ghost predicate Tries(r: Run, id: Id, rc: int, r': Run) {
    && (forall x :: x != id ==> RowOf(r'.rows, x) == RowOf(r.rows, x))
    && Attempted(r'.w.log) == Attempted(r.w.log) + (if r.w.life > 0 then [id] else [])
    && r'.w.life <= r.w.life
    && RowOf(r'.rows, id).record.Some? && RowOf(r'.rows, id).record.value.exit == rc
  }

  lemma AttemptRows(r: Run, id: Id, a: Attempt)
    ensures var rows := RunAttempt(r, id, a).rows;
      && (forall x :: x != id ==> RowOf(rows, x) == RowOf(r.rows, x))
      && RowOf(rows, id).record.Some? && RowOf(rows, id).record.value.exit == a.rc
  {
    hide Child, Spend, CostOf, PastFetch, StampOf, EnvelopeOf;
  }

  /** The writes of an attempt around its child. */
  lemma AroundChild(r: Run, id: Id, a: Attempt) returns (w1: World, started: Event, done: Event)
    ensures started.Started? && started.id == id && done.Completed?
    ensures w1.life <= r.w.life && w1.log == r.w.log + if r.w.life > 0 then [started] else []
    ensures var w2 := Child(w1, id, a); var w := RunAttempt(r, id, a).w;
      w.life <= w2.life && w.log == w2.log + if w2.life > 0 then [done] else []
  {
    started := Started(id, Spend(r.rows));
    w1 := Pend(r.(w := Note(r.w, started)), id).w;
    var e := EnvelopeOf(Child(w1, id, a), id);
    done := Completed(id, a.rc, PastFetch(e, a.rc), StampOf(e) != "");
    hide Child, Spend, MakeRecord, PastFetch, StampOf, EnvelopeOf;
  }

  lemma AttemptLog(r: Run, id: Id, a: Attempt)
    ensures var w := RunAttempt(r, id, a).w;
      Attempted(w.log) == Attempted(r.w.log) + (if r.w.life > 0 then [id] else []) && w.life <= r.w.life
  {
    hide *;
    var w1, started, done := AroundChild(r, id, a);
    ChildShape(w1, id, a);
    AttemptedAppend(r.w.log, started);
    AttemptedAppend(Child(w1, id, a).log, done);
    NothingMore(r.w.log);
    NothingMore(Child(w1, id, a).log);
    NothingMore(Attempted(Child(w1, id, a).log));
    NothingMore(Attempted(r.w.log));
  }

  lemma NothingMore<T>(s: seq<T>)
    ensures s + [] == s
  {}

  lemma AttemptTries(r: Run, id: Id, a: Attempt)
    ensures Tries(r, id, a.rc, RunAttempt(r, id, a))
  {
    AttemptRows(r, id, a);
    AttemptLog(r, id, a);
    hide RunAttempt, Attempted;
  }

  lemma ChildShape(w: World, id: Id, a: Attempt)
    ensures Attempted(Child(w, id, a).log) == Attempted(w.log) && Child(w, id, a).life <= w.life
  {
    if a.cost.Some? { AttemptedAppend(w.log, Produced(id, Charge(a.cost.value))); }
  }

  /** The attempts of a run that starts at `w` with `due` ahead of it. */
  ghost predicate InOrder(before: seq<Id>, due: seq<Id>, w: World, r: Run) {
    && r.w.life <= w.life
    && (w.life == 0 ==> Attempted(r.w.log) == before)
    && before <= Attempted(r.w.log) <= before + due
    && (r.w.life > 0 && r.code.None? ==> Attempted(r.w.log) == before + due)
  }

  /** Why it stops, or does not. */
  ghost predicate Stops(before: seq<Id>, due: seq<Id>, cap: real, r: Run) {
    match r.code
    case None => due != [] ==> Spend(r.rows) <= cap
    case Some(code) => (code == 12 && Spend(r.rows) > cap) || (code == 2 && (r.w.life > 0 ==> AuthFailed(before, r)))
  }

  /** The last meeting attempted failed, and its fetch error is an authentication error. */
  ghost predicate AuthFailed(before: seq<Id>, r: Run) {
    var ids := Attempted(r.w.log);
    |ids| > |before| &&
    var id := ids[|ids| - 1];
    && EnvelopeOf(r.w, id).fetchError == Some(Auth)
    && RowOf(r.rows, id).record.Some? && RowOf(r.rows, id).record.value.exit != 0
  }

  predicate IsDue(m: ManifestRow, rows: map<Id, Row>) {
    var record := RowOf(rows, m.id).record;
    !(m.alreadyApplied || (record.Some? && record.value.exit == 0))
  }

  lemma DueFirst(m: ManifestRow, rest: seq<ManifestRow>, rows: map<Id, Row>)
    ensures Due([m] + rest, rows) == (if IsDue(m, rows) then [m.id] else []) + Due(rest, rows)
  {
    assert ([m] + rest)[1..] == rest;
  }

  lemma TriedInOrder(m: ManifestRow, rc: int, r: Run, r': Run)
    requires Tries(r, m.id, rc, r')
    ensures forall code :: InOrder(Attempted(r.w.log), [m.id], r.w, r'.(code := code))
    ensures r'.w.life > 0 && rc != 0 && EnvelopeOf(r'.w, m.id).fetchError == Some(Auth) ==> AuthFailed(Attempted(r.w.log), r'.(code := Some(2)))
  {
    hide Attempted;
    var before := Attempted(r.w.log);
    assert before + [] == before && (before + [m.id])[|before|] == m.id;
  }

  /** The cases of one meeting, by name. */
  lemma OneIs(m: ManifestRow, cap: real, attempt: Id -> Attempt, r: Run)
    ensures var a := attempt(m.id); var r1 := RunAttempt(r, m.id, a);
      DryRunOne(m, cap, attempt, r) ==
        if !IsDue(m, r.rows) then r
        else if Spend(r.rows) > cap then r.(code := Some(12))
        else if a.rc != 0 && EnvelopeOf(r1.w, m.id).fetchError == Some(Auth) then r1.(code := Some(2))
        else if Spend(r1.rows) > cap then r1.(code := Some(12))
        else r1.(code := None)
  {
    assert RunAttempt(r, m.id, attempt(m.id)).code == None;
    hide RunAttempt, Spend;
  }

  lemma OneInOrder(m: ManifestRow, cap: real, attempt: Id -> Attempt, r: Run)
    requires r.code.None?
    ensures var due := if IsDue(m, r.rows) then [m.id] else []; var r' := DryRunOne(m, cap, attempt, r);
      && InOrder(Attempted(r.w.log), due, r.w, r') && Stops(Attempted(r.w.log), due, cap, r') && (due == [] ==> r' == r)
      && (r.w.life > 0 && r'.code.None? ==> Attempted(r'.w.log) == Attempted(r.w.log) + due)
      && forall x :: x != m.id ==> RowOf(r'.rows, x) == RowOf(r.rows, x)
  {
    var before := Attempted(r.w.log);
    assert before + [] == before;
    OneIs(m, cap, attempt, r);
    hide DryRunOne, RunAttempt, Attempted, Spend, IsDue, AuthFailed, EnvelopeOf;
    if IsDue(m, r.rows) && Spend(r.rows) <= cap {
      AttemptTries(r, m.id, attempt(m.id));
      var r1 := RunAttempt(r, m.id, attempt(m.id));
      TriedInOrder(m, attempt(m.id).rc, r, r1);
    }
  }

  /** Two stretches of attempts make one. */
  lemma ThenInOrder(before: seq<Id>, first: seq<Id>, due: seq<Id>, w: World, r1: Run, r2: Run)
    requires InOrder(before, first, w, r1) && r1.code.None? && InOrder(Attempted(r1.w.log), due, r1.w, r2)
    requires w.life > 0 ==> Attempted(r1.w.log) == before + first
    ensures InOrder(before, first + due, w, r2)
  {
    assert before + (first + due) == (before + first) + due;
  }

  lemma ThenStops(before: seq<Id>, first: seq<Id>, due: seq<Id>, cap: real, r1: Run, r2: Run)
    requires Stops(before, first, cap, r1) && r1.code.None? && Stops(Attempted(r1.w.log), due, cap, r2) && |before| <= |Attempted(r1.w.log)|
    requires due == [] ==> r2 == r1
    ensures Stops(before, first + due, cap, r2)
  {}

  lemma {:induction false} NothingDue(ms: seq<ManifestRow>, i: nat, cap: real, attempt: Id -> Attempt, r: Run)
    requires i <= |ms| && Due(ms[i..], r.rows) == []
    ensures DryRunRows(ms, i, cap, attempt, r) == r
    decreases |ms| - i
  {
    if i < |ms| && r.code.None? {
      assert ms[i..] == [ms[i]] + ms[i + 1..];
      DueFirst(ms[i], ms[i + 1..], r.rows);
      NothingDue(ms, i + 1, cap, attempt, r);
    }
  }

  lemma {:induction false} RowsInOrder(ms: seq<ManifestRow>, i: nat, cap: real, attempt: Id -> Attempt, r: Run)
    requires Unique(ms) && i <= |ms| && r.code.None?
    ensures var r' := DryRunRows(ms, i, cap, attempt, r); var before, due := Attempted(r.w.log), Due(ms[i..], r.rows);
      InOrder(before, due, r.w, r') && Stops(before, due, cap, r')
    decreases |ms| - i
  {
    var before := Attempted(r.w.log);
    if i == |ms| {
      assert ms[i..] == [] && before + [] == before;
    } else {
      var m, rest := ms[i], ms[i + 1..];
      assert ms[i..] == [m] + rest;
      var r1 := DryRunOne(m, cap, attempt, r);
      var first, due := if IsDue(m, r.rows) then [m.id] else [], Due(rest, r.rows);
      OneInOrder(m, cap, attempt, r);
      forall k | 0 <= k < |rest| ensures rest[k].id != m.id { assert rest[k] == ms[i + 1 + k]; }
      DueElsewhere(rest, r.rows, r1.rows, m.id);
      DueFirst(m, rest, r.rows);
      hide DryRunOne, Due, Stops, Spend, Unique, IsDue, Attempted;
      if r1.code.Some? {
        CutShort(before, first, due, cap, r.w, r1);
      } else {
        RowsInOrder(ms, i + 1, cap, attempt, r1);
        ThenInOrder(before, first, due, r.w, r1, DryRunRows(ms, i + 1, cap, attempt, r1));
        if due == [] { NothingDue(ms, i + 1, cap, attempt, r1); }
        ThenStops(before, first, due, cap, r1, DryRunRows(ms, i + 1, cap, attempt, r1));
      }
    }
  }

  lemma CutShort(before: seq<Id>, first: seq<Id>, due: seq<Id>, cap: real, w: World, r: Run)
    requires InOrder(before, first, w, r) && Stops(before, first, cap, r) && r.code.Some?
    ensures InOrder(before, first + due, w, r) && Stops(before, first + due, cap, r)
  {
    assert before + (first + due) == (before + first) + due;
  }

  /** One dry-run from any state, killed anywhere: it attempts the meetings due, in
      manifest order, and all of them unless it dies or stops.  It stops with 12 only over
      the cap, with 2 only after an authentication failure, and otherwise ends within the
      cap when there was anything to do. */
  lemma DryRunAttemptsDue(ms: seq<ManifestRow>, cap: real, attempt: Id -> Attempt, w: World)
    requires Unique(ms)
    ensures var r := DryRun(ms, cap, attempt, w); var before, due := Attempted(w.log), Due(ms, w.disk);
      InOrder(before, due, w, r) && Stops(before, due, cap, r)
  {
    assert ms[0..] == ms;
    RowsInOrder(ms, 0, cap, attempt, Run(w.disk, w, None));
  }
}
