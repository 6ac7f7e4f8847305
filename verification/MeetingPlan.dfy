/** What one apply of a meeting does, as a table: eleven stations in their order, and
    at each of them whether something happens, what, and with which exit code the
    apply stops there.  A run is the table cut short by its first failure or by its
    death, and what it leaves on record is what the table says. */
module MeetingPlan {
  import opened Common
  import opened MeetingApply

  // ------------------------------------------------------------ the table

  datatype Station = Do(step: Step) | Signature | Nodes | Enough

  const Stations: seq<Station> := [Do(Writeback), Do(Crm), Do(Tasks), Do(Draft), Signature, Nodes, Do(Rollup), Do(StatusUpdate), Do(Filed), Enough, Do(CommitStep)]

  function FailCode(t: Station): int {
    match t
    case Do(Writeback) => 7 case Do(Crm) => 11 case Do(Tasks) => 8 case Do(Draft) => 9
    case Signature => 15 case Nodes => 6 case Do(Rollup) => 6 case Do(StatusUpdate) => 14
    case Do(Filed) => 1 case Enough => 9 case Do(CommitStep) => 10
  }

  /** A step a backfill leaves out. */
  predicate LeftOut(env: Env, s: Step) {
    env.backfill && (s == Tasks || s == Draft || s == StatusUpdate)
  }

  /** A checkpoint that is trusted: the page still shows a writeback, and the paths of a
      commit are clean. */
  predicate Trusted(env: Env, doc: Doc, s: Step) {
    IsDone(doc, s) && (s == Writeback ==> env.markerPresent) && (s == CommitStep ==> !env.dirty)
  }

  /** A skipped duplicate that is neither recorded, nor reported, nor found on the bus. */
  predicate LostTask(env: Env, doc: Doc, id: Id) {
    env.fanOut.FanAll? && id in env.fanOut.duplicates && id !in doc.created && id !in env.fanOut.mapped && id !in env.fanOut.recovered
  }

  ghost predicate Fails(env: Env, doc: Doc, s: Step) {
    match s
    case Tasks => !env.fanOut.FanAll? || exists id :: LostTask(env, doc, id)
    case CommitStep => env.git.GitFailed?
    case _ => s in env.fails
  }

  /** What happens at a station, and the code if the apply stops there. */
  ghost function Act(env: Env, doc: Doc, t: Station): (seq<Event>, Option<int>) {
    match t
    case Signature => ([], if env.unsigned then Some(FailCode(t)) else None)
    case Nodes => ([], if env.nodesBroken then Some(FailCode(t)) else None)
    case Enough => ([], if env.shortfall && !env.backfill then Some(FailCode(t)) else None)
    case Do(s) =>
      if LeftOut(env, s) || Trusted(env, doc, s) then ([], None)
      else if s == StatusUpdate && !env.engagement then ([Event(s, true, NothingToDo)], None)
      else if Fails(env, doc, s) then ([Event(s, !env.backfill, Failed)], Some(FailCode(t)))
      else ([Event(s, !env.backfill, Did)], None)
  }

  /** Events and exit code after the first `k` stations. */
  ghost function Upto(env: Env, doc: Doc, k: nat): (seq<Event>, Option<int>)
    requires k <= |Stations|
  {
    if k == 0 then ([], None)
    else
      var (done, code) := Upto(env, doc, k - 1);
      if code.Some? then (done, code)
      else
        var (more, stop) := Act(env, doc, Stations[k - 1]);
        (done + more, stop)
  }

  /** The gates come before everything, then the answer that it is applied already. */
  ghost function Plan(env: Env, w: World): (seq<Event>, int) {
    if env.gate.Some? then ([], env.gate.value)
    else if w.receipt.Some? && w.receipt.value.vaultSha.Some? && !env.force then ([], 0)
    else
      var (events, code) := Upto(env, w.doc, |Stations|);
      (events, if code.Some? then code.value else 0)
  }

  /** The tasks on record once the fan-out is through: a pair already recorded wins, then
      a reported one, then one found again on the bus. */
  function CreatedAfter(env: Env, doc: Doc): map<Id, Id> {
    if env.backfill then (if MarkOf(doc, Tasks).Open? then map[] else doc.created)
    else if IsDone(doc, Tasks) then doc.created
    else
      match env.fanOut
      case FanFailed => doc.created
      case FanPartial(mapped) => map id | id in doc.created.Keys + mapped.Keys :: if id in doc.created then doc.created[id] else mapped[id]
      case FanAll(mapped, duplicates, recovered) =>
        map id | id in doc.created.Keys + mapped.Keys + duplicates * recovered.Keys ::
          if id in doc.created then doc.created[id] else if id in mapped then mapped[id] else recovered[id]
  }

  // ------------------------------------------------------------ a run against the table

  /** The mark of a step when the stations before rank `n` are through. */
  function MarkAt(env: Env, doc: Doc, n: nat, s: Step): Mark {
    if Rank(s) >= n then (if s == Writeback && IsDone(doc, s) && !env.markerPresent then Open else MarkOf(doc, s))
    else if LeftOut(env, s) then (if MarkOf(doc, s).Open? then Skipped else MarkOf(doc, s))
    else Done
  }

  ghost predicate Follows(base: seq<Event>, done: seq<Event>, r: Run) {
    base <= r.w.log <= base + done && (r.w.life > 0 ==> r.w.log == base + done)
  }

  /** A living run has the marks, the tasks and the commit the table says. */
  ghost predicate OnRecord(env: Env, w: World, n: nat, doc: Doc) {
    && (forall s :: MarkOf(doc, s) == MarkAt(env, w.doc, n, s))
    && doc.created == (if n <= 2 then w.doc.created else CreatedAfter(env, w.doc))
    && doc.sha == w.doc.sha
  }

  ghost predicate At(env: Env, w: World, k: nat, n: nat, r: Run)
    requires k <= |Stations|
  {
    && Follows(w.log, Upto(env, w.doc, k).0, r)
    && (r.w.life > 0 ==> r.exit == Upto(env, w.doc, k).1 && (r.exit.None? ==> OnRecord(env, w, n, r.w.doc) && r.w.receipt == w.receipt))
  }

  lemma OneStation(env: Env, doc: Doc, k: nat)
    requires k < |Stations|
    ensures var (done, code) := Upto(env, doc, k);
      Upto(env, doc, k + 1) == if code.Some? then (done, code) else (done + Act(env, doc, Stations[k]).0, Act(env, doc, Stations[k]).1)
  {}

  lemma SameMarksBut(doc: Doc, s: Step, m: Mark)
    ensures forall t :: MarkOf(SetMark(doc, s, m), t) == if t == s then m else MarkOf(doc, t)
    ensures SetMark(doc, s, m).created == doc.created && SetMark(doc, s, m).sha == doc.sha
  {}

  lemma RecordNext(env: Env, w: World, s: Step, doc: Doc, doc': Doc)
    requires OnRecord(env, w, Rank(s), doc) && doc'.sha == doc.sha
    requires forall t :: MarkOf(doc', t) == if t == s then MarkAt(env, w.doc, Rank(s) + 1, s) else MarkOf(doc, t)
    requires doc'.created == if s == Tasks then CreatedAfter(env, w.doc) else doc.created
    ensures OnRecord(env, w, Rank(s) + 1, doc')
  {
    forall t ensures MarkOf(doc', t) == MarkAt(env, w.doc, Rank(s) + 1, t) { SameRank(s, t); }
    if Rank(s) == 2 { SameRank(s, Tasks); }
  }

  lemma SameRank(s: Step, t: Step)
    ensures Rank(s) == Rank(t) <==> s == t
  {}

  lemma DeadAt(env: Env, w: World, k: nat, n: nat, r: Run, m: nat, r': Run)
    requires k < |Stations| && At(env, w, k, n, r) && r.w.life == 0 && r'.w == r.w
    ensures At(env, w, k + 1, m, r')
  {
    OneStation(env, w.doc, k);
  }

  lemma StoppedAt(env: Env, w: World, k: nat, n: nat, r: Run, m: nat)
    requires k < |Stations| && At(env, w, k, n, r) && r.w.life > 0 && r.exit.Some?
    ensures At(env, w, k + 1, m, r)
  {
    OneStation(env, w.doc, k);
  }

  /** A station of a step that has its mark. */
  lemma MarkedAt(env: Env, w: World, k: nat, s: Step, r: Run)
    requires k < |Stations| && Stations[k] == Do(s) && s !in {Tasks, CommitStep} && !LeftOut(env, s)
    requires At(env, w, k, Rank(s), r) && r.w.life > 0 && r.exit.None? && IsDone(r.w.doc, s)
    ensures At(env, w, k + 1, Rank(s) + 1, r)
  {
    OneStation(env, w.doc, k);
    assert MarkOf(r.w.doc, s) == MarkAt(env, w.doc, Rank(s), s);
    assert Trusted(env, w.doc, s) && Upto(env, w.doc, k).0 + [] == Upto(env, w.doc, k).0;
    hide Upto, Stations;
    RecordNext(env, w, s, r.w.doc, r.w.doc);
  }

  lemma UnmarkedActs(env: Env, w: World, k: nat, s: Step, r: Run)
    requires k < |Stations| && Stations[k] == Do(s) && s !in {Tasks, CommitStep} && !LeftOut(env, s) && (s == StatusUpdate ==> env.engagement)
    requires At(env, w, k, Rank(s), r) && r.w.life > 0 && r.exit.None? && !IsDone(r.w.doc, s)
    ensures var e := Event(s, !env.backfill, if s in env.fails then Failed else Did);
      Upto(env, w.doc, k + 1) == (Upto(env, w.doc, k).0 + [e], if s in env.fails then Some(FailCode(Do(s))) else None)
  {
    OneStation(env, w.doc, k);
    assert MarkOf(r.w.doc, s) == MarkAt(env, w.doc, Rank(s), s);
    hide Upto, Stations;
  }

  lemma UnmarkedAt(env: Env, w: World, k: nat, s: Step, code: int, r: Run)
    requires k < |Stations| && Stations[k] == Do(s) && code == FailCode(Do(s)) && s !in {Tasks, CommitStep} && !LeftOut(env, s) && (s == StatusUpdate ==> env.engagement)
    requires At(env, w, k, Rank(s), r) && r.w.life > 0 && r.exit.None? && !IsDone(r.w.doc, s)
    ensures At(env, w, k + 1, Rank(s) + 1, DoStep(s, code, env, r))
  {
    UnmarkedActs(env, w, k, s, r);
    hide Upto, Stations;
    if s !in env.fails {
      SameMarksBut(r.w.doc, s, Done);
      RecordNext(env, w, s, r.w.doc, SetMark(r.w.doc, s, Done));
    }
  }

  /** A checkpointed step that is not the tasks or the commit. */
  lemma PlainStep(env: Env, w: World, k: nat, s: Step, code: int, r: Run)
    requires k < |Stations| && Stations[k] == Do(s) && code == FailCode(Do(s)) && s !in {Tasks, CommitStep}
    requires At(env, w, k, Rank(s), r) && !LeftOut(env, s) && (s == StatusUpdate ==> env.engagement || (r.w.life > 0 && r.exit.None? && IsDone(r.w.doc, s)))
    ensures At(env, w, k + 1, Rank(s) + 1, DoStep(s, code, env, r))
  {
    hide At, Stations, FailCode;
    if r.w.life == 0 {
      DeadAt(env, w, k, Rank(s), r, Rank(s) + 1, DoStep(s, code, env, r));
    } else if r.exit.Some? {
      StoppedAt(env, w, k, Rank(s), r, Rank(s) + 1);
    } else if IsDone(r.w.doc, s) {
      MarkedAt(env, w, k, s, r);
    } else {
      UnmarkedAt(env, w, k, s, code, r);
    }
  }

  /** A step that a backfill leaves out. */
  lemma LeftOutStep(env: Env, w: World, k: nat, s: Step, r: Run)
    requires k < |Stations| && Stations[k] == Do(s) && LeftOut(env, s) && At(env, w, k, Rank(s), r)
    ensures At(env, w, k + 1, Rank(s) + 1, BackfillSkip(s, r))
  {
    OneStation(env, w.doc, k);
    var done := Upto(env, w.doc, k).0;
    if r.w.life > 0 && r.exit.None? {
      assert MarkOf(r.w.doc, s) == MarkAt(env, w.doc, Rank(s), s) == MarkOf(w.doc, s);
      hide Upto, Stations;
      SameMarksBut(r.w.doc, s, Skipped);
      assert done + [] == done;
      RecordNext(env, w, s, r.w.doc, if !MarkOf(r.w.doc, s).Open? then r.w.doc
                                     else if s == Tasks then SetMark(r.w.doc, s, Skipped).(created := map[]) else SetMark(r.w.doc, s, Skipped));
    }
  }

  lemma AllRecovered(env: Env, doc: Doc)
    requires env.fanOut.FanAll?
    ensures var pairs := MergeTaskMap(doc.created, env.fanOut.mapped); var again := env.fanOut.duplicates - pairs.Keys;
      var all := MergeTaskMap(pairs, map id | id in again && id in env.fanOut.recovered :: env.fanOut.recovered[id]);
      && (env.fanOut.duplicates <= all.Keys <==> !Fails(env, doc, Tasks))
      && (!env.backfill && !IsDone(doc, Tasks) ==> all == CreatedAfter(env, doc))
  {
    var pairs := MergeTaskMap(doc.created, env.fanOut.mapped);
    var again := env.fanOut.duplicates - pairs.Keys;
    var all := MergeTaskMap(pairs, map id | id in again && id in env.fanOut.recovered :: env.fanOut.recovered[id]);
    forall id | id in env.fanOut.duplicates ensures id in all <==> !LostTask(env, doc, id) {}
  }

  lemma TasksDone(env: Env, w: World, k: nat, r: Run)
    requires k < |Stations| && Stations[k] == Do(Tasks) && At(env, w, k, Rank(Tasks), r) && !env.backfill
    requires r.w.life > 0 && r.exit.None? && IsDone(r.w.doc, Tasks)
    ensures At(env, w, k + 1, Rank(Tasks) + 1, r)
  {
    OneStation(env, w.doc, k);
    var done := Upto(env, w.doc, k).0;
    assert MarkOf(r.w.doc, Tasks) == MarkAt(env, w.doc, Rank(Tasks), Tasks) == MarkOf(w.doc, Tasks);
    hide Upto, Stations;
    assert done + [] == done;
    RecordNext(env, w, Tasks, r.w.doc, r.w.doc);
  }

  lemma TasksActs(env: Env, w: World, k: nat, r: Run)
    requires k < |Stations| && Stations[k] == Do(Tasks) && At(env, w, k, Rank(Tasks), r) && !env.backfill
    requires r.w.life > 0 && r.exit.None? && !IsDone(r.w.doc, Tasks)
    ensures r.w.doc.created == w.doc.created && !IsDone(w.doc, Tasks) && r.w.log == w.log + Upto(env, w.doc, k).0
    ensures Upto(env, w.doc, k + 1) == (Upto(env, w.doc, k).0 + [Event(Tasks, true, if Fails(env, w.doc, Tasks) then Failed else Did)],
                                        if Fails(env, w.doc, Tasks) then Some(8) else None)
  {
    OneStation(env, w.doc, k);
    assert MarkOf(r.w.doc, Tasks) == MarkAt(env, w.doc, Rank(Tasks), Tasks) == MarkOf(w.doc, Tasks);
    hide Upto, Stations, Fails;
  }

  lemma TasksRun(env: Env, w: World, k: nat, r: Run)
    requires k < |Stations| && Stations[k] == Do(Tasks) && At(env, w, k, Rank(Tasks), r) && !env.backfill
    requires r.w.life > 0 && r.exit.None? && !IsDone(r.w.doc, Tasks)
    ensures At(env, w, k + 1, Rank(Tasks) + 1, TasksStep(env, r))
  {
    TasksActs(env, w, k, r);
    hide Upto, Stations;
    if env.fanOut.FanAll? {
      AllRecovered(env, r.w.doc);
      AllRecovered(env, w.doc);
      hide Fails, CreatedAfter;
      if !Fails(env, w.doc, Tasks) {
        SameMarksBut(r.w.doc, Tasks, Done);
        RecordNext(env, w, Tasks, r.w.doc, SetMark(r.w.doc, Tasks, Done).(created := CreatedAfter(env, w.doc)));
      }
    }
  }

  lemma TasksAt(env: Env, w: World, k: nat, r: Run)
    requires k < |Stations| && Stations[k] == Do(Tasks) && At(env, w, k, Rank(Tasks), r)
    ensures At(env, w, k + 1, Rank(Tasks) + 1, TasksStep(env, r))
  {
    if r.w.life == 0 {
      DeadAt(env, w, k, Rank(Tasks), r, Rank(Tasks) + 1, TasksStep(env, r));
    } else if r.exit.Some? {
      StoppedAt(env, w, k, Rank(Tasks), r, Rank(Tasks) + 1);
    } else if env.backfill {
      LeftOutStep(env, w, k, Tasks, r);
    } else if IsDone(r.w.doc, Tasks) {
      TasksDone(env, w, k, r);
    } else {
      TasksRun(env, w, k, r);
    }
  }

  lemma StatusAt(env: Env, w: World, k: nat, r: Run)
    requires k < |Stations| && Stations[k] == Do(StatusUpdate) && At(env, w, k, Rank(StatusUpdate), r)
    ensures At(env, w, k + 1, Rank(StatusUpdate) + 1, StatusStep(env, r))
  {
    if r.w.life == 0 {
      DeadAt(env, w, k, Rank(StatusUpdate), r, Rank(StatusUpdate) + 1, StatusStep(env, r));
    } else if r.exit.Some? {
      StoppedAt(env, w, k, Rank(StatusUpdate), r, Rank(StatusUpdate) + 1);
    } else if env.backfill {
      LeftOutStep(env, w, k, StatusUpdate, r);
    } else if IsDone(r.w.doc, StatusUpdate) || env.engagement {
      PlainStep(env, w, k, StatusUpdate, 14, r);
    } else {
      OneStation(env, w.doc, k);
      assert MarkOf(r.w.doc, StatusUpdate) == MarkAt(env, w.doc, Rank(StatusUpdate), StatusUpdate) == MarkOf(w.doc, StatusUpdate);
      hide Upto, Stations;
      SameMarksBut(r.w.doc, StatusUpdate, Done);
      RecordNext(env, w, StatusUpdate, r.w.doc, SetMark(r.w.doc, StatusUpdate, Done));
    }
  }

  lemma DraftAt(env: Env, w: World, k: nat, r: Run)
    requires k < |Stations| && Stations[k] == Do(Draft) && At(env, w, k, Rank(Draft), r)
    ensures At(env, w, k + 1, Rank(Draft) + 1, DraftStep(env, r))
  {
    if r.exit.Some? {
      if r.w.life > 0 { StoppedAt(env, w, k, Rank(Draft), r, Rank(Draft) + 1); } else { DeadAt(env, w, k, Rank(Draft), r, Rank(Draft) + 1, r); }
    } else if env.backfill {
      LeftOutStep(env, w, k, Draft, r);
    } else {
      PlainStep(env, w, k, Draft, 9, r);
    }
  }

  lemma RefuseAt(env: Env, w: World, k: nat, n: nat, refused: bool, r: Run)
    requires k < |Stations| && ((Stations[k] == Signature && refused == env.unsigned) || (Stations[k] == Nodes && refused == env.nodesBroken))
    requires At(env, w, k, n, r)
    ensures At(env, w, k + 1, n, Refuse(refused, FailCode(Stations[k]), r))
  {
    OneStation(env, w.doc, k);
    assert Upto(env, w.doc, k).0 + [] == Upto(env, w.doc, k).0;
  }

  lemma MinimumsAt(env: Env, w: World, k: nat, n: nat, r: Run)
    requires k < |Stations| && Stations[k] == Enough && At(env, w, k, n, r)
    ensures At(env, w, k + 1, n, Minimums(env, w.receipt, r))
  {
    OneStation(env, w.doc, k);
    assert Upto(env, w.doc, k).0 + [] == Upto(env, w.doc, k).0;
  }

  lemma OpeningAt(env: Env, w: World)
    ensures At(env, w, 0, 0, CheckMarker(env, Prelude(env, Run(w, None))))
  {
    assert w.log + [] == w.log;
  }

  /** The first four stations. */
  lemma Phase2At(env: Env, w: World)
    ensures At(env, w, 4, 4, Phase2(env, Run(w, None)))
  {
    hide At;
    OpeningAt(env, w);
    var r0 := CheckMarker(env, Prelude(env, Run(w, None)));
    hide CheckMarker, Prelude, DoStep, TasksStep, DraftStep;
    PlainStep(env, w, 0, Writeback, 7, r0);
    PlainStep(env, w, 1, Crm, 11, DoStep(Writeback, 7, env, r0));
    TasksAt(env, w, 2, DoStep(Crm, 11, env, DoStep(Writeback, 7, env, r0)));
    DraftAt(env, w, 3, TasksStep(env, DoStep(Crm, 11, env, DoStep(Writeback, 7, env, r0))));
  }

  /** The next five. */
  lemma Phase3At(env: Env, w: World, r: Run)
    requires At(env, w, 4, 4, r)
    ensures At(env, w, 9, 7, Phase3(env, r))
  {
    hide At, DoStep, StatusStep, Refuse;
    RefuseAt(env, w, 4, 4, env.unsigned, r);
    var r1 := Refuse(env.unsigned, 15, r);
    RefuseAt(env, w, 5, 4, env.nodesBroken, r1);
    var r2 := Refuse(env.nodesBroken, 6, r1);
    PlainStep(env, w, 6, Rollup, 6, r2);
    StatusAt(env, w, 7, DoStep(Rollup, 6, env, r2));
    PlainStep(env, w, 8, Filed, 1, StatusStep(env, DoStep(Rollup, 6, env, r2)));
  }

  // ------------------------------------------------------------ the commit

  /** The commit the apply ends with. */
  function CommitSha(env: Env, w: World): Option<string> {
    if Trusted(env, w.doc, CommitStep) then w.doc.sha
    else if env.git.Committed? then Some(env.git.sha)
    else if w.receipt.Some? && w.receipt.value.vaultSha.Some? then w.receipt.value.vaultSha
    else env.history
  }

  /** What the receipt shows of it. */
  function ShownSha(env: Env, w: World): Option<string> {
    if CommitSha(env, w).Some? then CommitSha(env, w) else if w.receipt.Some? then w.receipt.value.vaultSha else None
  }

  ghost predicate Finished(env: Env, w: World, w': World) {
    && (forall s :: MarkOf(w'.doc, s) == MarkAt(env, w.doc, 8, s))
    && w'.doc.created == CreatedAfter(env, w.doc)
    && w'.doc.sha == CommitSha(env, w)
    && w'.receipt == Some(Receipt(if w.receipt.Some? then w.receipt.value.firstAppliedAt else env.now, ShownSha(env, w), env.now))
  }

  lemma TrustedCommit(env: Env, w: World, r: Run)
    requires At(env, w, 10, 7, r) && r.w.life > 0 && r.exit.None? && Trusted(env, w.doc, CommitStep)
    ensures var r' := CommitAndReceipt(env, w.receipt, r); r'.w.log == r.w.log && (r'.w.life > 0 ==> r'.exit == Some(0) && Finished(env, w, r'.w))
  {
    assert MarkOf(r.w.doc, CommitStep) == MarkAt(env, w.doc, 7, CommitStep) == MarkOf(w.doc, CommitStep);
    hide Upto;
    MarksAtEnd(env, w, r.w.doc);
  }

  lemma FreshCommit(env: Env, w: World, r: Run)
    requires At(env, w, 10, 7, r) && r.w.life > 0 && r.exit.None? && !Trusted(env, w.doc, CommitStep) && !env.git.GitFailed?
    ensures var r' := CommitAndReceipt(env, w.receipt, r);
      r'.w.log == r.w.log + [Event(CommitStep, !env.backfill, Did)] && (r'.w.life > 0 ==> r'.exit == Some(0) && Finished(env, w, r'.w))
  {
    assert MarkOf(r.w.doc, CommitStep) == MarkAt(env, w.doc, 7, CommitStep) == MarkOf(w.doc, CommitStep);
    hide Upto;
    SameMarksBut(r.w.doc, CommitStep, Done);
    MarksAtEnd(env, w, SetMark(r.w.doc, CommitStep, Done));
  }

  lemma CommitAt(env: Env, w: World, r: Run)
    requires At(env, w, 10, 7, r)
    ensures var r' := CommitAndReceipt(env, w.receipt, r); var (events, code) := Upto(env, w.doc, 11);
      && Follows(w.log, events, r')
      && (r'.w.life > 0 ==> r'.exit == Some(if code.Some? then code.value else 0) && (code.None? ==> Finished(env, w, r'.w)))
  {
    OneStation(env, w.doc, 10);
    assert Upto(env, w.doc, 10).0 + [] == Upto(env, w.doc, 10).0;
    hide Upto;
    if r.w.life > 0 && r.exit.None? {
      assert MarkOf(r.w.doc, CommitStep) == MarkAt(env, w.doc, 7, CommitStep) == MarkOf(w.doc, CommitStep);
      if Trusted(env, w.doc, CommitStep) {
        TrustedCommit(env, w, r);
        hide CommitAndReceipt, Finished;
      } else if !env.git.GitFailed? {
        FreshCommit(env, w, r);
        hide CommitAndReceipt, Finished;
      }
    }
  }

  lemma MarksAtEnd(env: Env, w: World, doc: Doc)
    requires (forall s :: s != CommitStep ==> MarkOf(doc, s) == MarkAt(env, w.doc, 7, s)) && IsDone(doc, CommitStep)
    ensures forall s :: MarkOf(doc, s) == MarkAt(env, w.doc, 8, s)
  {
    forall s ensures MarkOf(doc, s) == MarkAt(env, w.doc, 8, s) { SameRank(s, CommitStep); }
  }

  // ------------------------------------------------------------ the whole apply

  predicate PastGates(env: Env, w: World) {
    env.gate.None? && (env.force || w.receipt.None? || w.receipt.value.vaultSha.None?)
  }

  lemma WholeAt(env: Env, w: World)
    requires PastGates(env, w)
    ensures var r := Apply(env, w); var (events, code) := Upto(env, w.doc, 11);
      && Follows(w.log, events, r)
      && (r.w.life > 0 ==> r.exit == Some(if code.Some? then code.value else 0) && (code.None? ==> Finished(env, w, r.w)))
  {
    hide At, Upto, Follows, Finished, Phase2, Phase3, Minimums, CommitAndReceipt;
    Phase2At(env, w);
    Phase3At(env, w, Phase2(env, Run(w, None)));
    MinimumsAt(env, w, 9, 7, Phase3(env, Phase2(env, Run(w, None))));
    CommitAt(env, w, Minimums(env, w.receipt, Phase3(env, Phase2(env, Run(w, None)))));
    assert Gates(env, Run(w, None)) == Run(w, None);
  }

  lemma RefusedAtGate(env: Env, w: World)
    requires !PastGates(env, w)
    ensures Apply(env, w) == Run(w, Some(Plan(env, w).1)) && Plan(env, w).0 == []
  {
    var r := Gates(env, Run(w, None));
    assert r.exit.Some?;
    StoppedStays(env, w, r);
  }

  lemma StoppedStays(env: Env, w: World, r: Run)
    requires r.exit.Some?
    ensures CommitAndReceipt(env, w.receipt, Minimums(env, w.receipt, Phase3(env, Phase2(env, r)))) == r
    ensures CommitAndReceipt(env, w.receipt, Minimums(env, w.receipt, Phase3(env, DraftStep(env, r)))) == r
  {}

  /** One apply, from any state and killed anywhere: what it does is the table cut short
      by its first failing station or by its death; living, it returns the code of that
      station, or 0. */
  lemma ApplyFollowsPlan(env: Env, w: World)
    ensures var r := Apply(env, w);
      && w.log <= r.w.log <= w.log + Plan(env, w).0
      && (r.w.life > 0 ==> r.w.log == w.log + Plan(env, w).0 && r.exit == Some(Plan(env, w).1))
  {
    if PastGates(env, w) {
      WholeAt(env, w);
    } else {
      RefusedAtGate(env, w);
      assert w.log + [] == w.log;
    }
  }

  /** An apply that lives through all stations leaves every step done or left out, the
      tasks of the table, the sha git answered (else the prior receipt's, else the
      history's; a trusted commit keeps its own), and a receipt that shows it. */
  lemma FinishedApplyIsOnRecord(env: Env, w: World)
    requires PastGates(env, w) && Upto(env, w.doc, |Stations|).1.None? && Apply(env, w).w.life > 0
    ensures Finished(env, w, Apply(env, w).w)
  {
    WholeAt(env, w);
  }

  /** A fan-out that fails part way stops the apply with what it did report on record. */
  lemma PartialFanOutIsKept(env: Env, w: World)
    requires PastGates(env, w) && !env.backfill && !IsDone(w.doc, Tasks) && env.fanOut.FanPartial? && Upto(env, w.doc, 2).1.None?
    requires Apply(env, w).w.life > 0
    ensures var r := Apply(env, w); r.exit == Some(8) && r.w.doc.created == CreatedAfter(env, w.doc) && MarkOf(r.w.doc, Tasks).Open? && r.w.receipt == w.receipt
  {
    hide At;
    OpeningAt(env, w);
    var r0 := CheckMarker(env, Prelude(env, Run(w, None)));
    var r1 := DoStep(Writeback, 7, env, r0);
    var r2 := DoStep(Crm, 11, env, r1);
    hide CheckMarker, Prelude, DoStep, DraftStep, Phase3, Minimums, CommitAndReceipt;
    PlainStep(env, w, 0, Writeback, 7, r0);
    PlainStep(env, w, 1, Crm, 11, r1);
    PartialStops(env, w, r2);
    assert Gates(env, Run(w, None)) == Run(w, None);
    LifeOnlyFalls(env, w, TasksStep(env, r2));
    StoppedStays(env, w, TasksStep(env, r2));
  }

  lemma StepSpends(s: Step, code: int, env: Env, r: Run)
    ensures DoStep(s, code, env, r).w.life <= r.w.life
  {}

  lemma LifeOnlyFalls(env: Env, w: World, r: Run)
    ensures CommitAndReceipt(env, w.receipt, Minimums(env, w.receipt, Phase3(env, DraftStep(env, r)))).w.life <= r.w.life
  {
    var r1 := DraftStep(env, r);
    var r2 := Refuse(env.nodesBroken, 6, Refuse(env.unsigned, 15, r1));
    assert r2.w.life <= r1.w.life <= r.w.life;
    StepSpends(Rollup, 6, env, r2);
    var r3 := StatusStep(env, DoStep(Rollup, 6, env, r2));
    assert r3.w.life <= DoStep(Rollup, 6, env, r2).w.life;
    StepSpends(Filed, 1, env, r3);
    var r4 := Phase3(env, r1);
    assert r4 == DoStep(Filed, 1, env, r3);
    hide DoStep, Phase3, DraftStep, StatusStep, Refuse;
    assert CommitAndReceipt(env, w.receipt, Minimums(env, w.receipt, r4)).w.life <= r4.w.life;
  }

  lemma PartialStops(env: Env, w: World, r: Run)
    requires At(env, w, 2, 2, r) && !env.backfill && !IsDone(w.doc, Tasks) && env.fanOut.FanPartial? && Upto(env, w.doc, 2).1.None?
    ensures var r' := TasksStep(env, r); (r.w.life == 0 ==> r'.w.life == 0) && (r'.w.life > 0 ==>
        r'.exit == Some(8) && r'.w.doc.created == CreatedAfter(env, w.doc) && MarkOf(r'.w.doc, Tasks).Open? && r'.w.receipt == w.receipt)
  {
    if r.w.life > 0 { assert MarkOf(r.w.doc, Tasks) == MarkAt(env, w.doc, 2, Tasks) == MarkOf(w.doc, Tasks); }
  }

  // ------------------------------------------------------------ what a backfill remembers

  ghost predicate SameNotes(a: Run, b: Run) {
    b.w.doc.backfillRun == a.w.doc.backfillRun && b.w.doc.priorDone == a.w.doc.priorDone
  }

  lemma StepKeepsNotes(env: Env, r: Run, s: Step, code: int)
    ensures SameNotes(r, DoStep(s, code, env, r)) && SameNotes(r, CheckMarker(env, r))
  {}

  lemma TasksKeepNotes(env: Env, r: Run)
    ensures SameNotes(r, TasksStep(env, r))
  {
    hide IsDone, MergeTaskMap;
  }

  lemma StatusKeepsNotes(env: Env, r: Run)
    ensures SameNotes(r, StatusStep(env, r)) && SameNotes(r, DraftStep(env, r))
  {
    hide DoStep;
    StepKeepsNotes(env, r, StatusUpdate, 14);
    StepKeepsNotes(env, r, Draft, 9);
  }

  lemma CommitKeepsNotes(env: Env, prior: Option<Receipt>, r: Run)
    ensures SameNotes(r, CommitAndReceipt(env, prior, Minimums(env, prior, r)))
  {
    hide OrElse, ShaOf, Compose, IsDone;
  }

  lemma Phase3KeepsNotes(env: Env, r: Run)
    ensures SameNotes(r, Phase3(env, r))
  {
    hide DoStep, StatusStep;
    var r2 := Refuse(env.nodesBroken, 6, Refuse(env.unsigned, 15, r));
    assert SameNotes(r, r2);
    hide Refuse;
    StepKeepsNotes(env, r2, Rollup, 6);
    var r3 := DoStep(Rollup, 6, env, r2);
    StatusKeepsNotes(env, r3);
    StepKeepsNotes(env, StatusStep(env, r3), Filed, 1);
  }

  lemma Phase2KeepsNotes(env: Env, r: Run)
    ensures SameNotes(Prelude(env, r), Phase2(env, r))
  {
    hide DoStep, TasksStep, DraftStep, CheckMarker, Prelude;
    var r0 := Prelude(env, r);
    var r1 := CheckMarker(env, r0);
    StepKeepsNotes(env, r0, Writeback, 7);
    StepKeepsNotes(env, r1, Writeback, 7);
    var r2 := DoStep(Writeback, 7, env, r1);
    StepKeepsNotes(env, r2, Crm, 11);
    var r3 := DoStep(Crm, 11, env, r2);
    TasksKeepNotes(env, r3);
    StatusKeepsNotes(env, TasksStep(env, r3));
  }

  /** The first backfill apply that gets past the gates notes that there was one, and then
      which of the steps a backfill leaves out were done before it; no other apply touches
      either note, so a kill between the two writes loses the second for good. */
  lemma BackfillIsRemembered(env: Env, w: World)
    ensures var doc := Apply(env, w).w.doc;
      if env.backfill && PastGates(env, w) && !w.doc.backfillRun then
        && doc.backfillRun == (w.life >= 1)
        && doc.priorDone == (if w.life >= 2 then Some(set s | s in {Tasks, StatusUpdate, Draft} && IsDone(w.doc, s)) else w.doc.priorDone)
      else doc.backfillRun == w.doc.backfillRun && doc.priorDone == w.doc.priorDone
  {
    var r := Gates(env, Run(w, None));
    var r0 := Prelude(env, r);
    assert Snapshot(w.doc) == set s | s in {Tasks, StatusUpdate, Draft} && IsDone(w.doc, s);
    Phase2KeepsNotes(env, r);
    Phase3KeepsNotes(env, Phase2(env, r));
    CommitKeepsNotes(env, w.receipt, Phase3(env, Phase2(env, r)));
    hide Phase2, Phase3, Minimums, CommitAndReceipt;
  }
}
