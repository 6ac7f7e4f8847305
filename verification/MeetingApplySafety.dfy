/** What every per-meeting apply keeps, killed or not, live or backfill. */
module MeetingApplySafety {
  import opened Common
  import opened MeetingApply

  // ------------------------------------------------------------ claims about the log

  predicate Backed(e: Event, s: Step) { e.step == s && e.outcome != Failed }

  /** A done mark on disk is backed by an effect that happened. */
  ghost predicate Faithful(w: World) {
    forall s :: IsDone(w.doc, s) ==> exists e :: e in w.log && Backed(e, s)
  }

  /** The steps before rank `n`; a backfill leaves three of them out. */
  function Needs(live: bool, n: nat): set<Step> {
    set s | s in {Writeback, Crm, Tasks, Draft, Rollup, StatusUpdate, Filed, CommitStep}
            && Rank(s) < n && (live || s !in {Tasks, Draft, StatusUpdate})
  }

  /** Every effect comes after the effects of all the steps before it. */
  ghost predicate Ordered(log: seq<Event>) {
    forall i, t :: 0 <= i < |log| && t in Needs(log[i].live, Rank(log[i].step)) ==> exists j :: 0 <= j < i && Backed(log[j], t)
  }

  ghost predicate Ready(env: Env, r: Run, n: nat) {
    r.exit.None? && r.w.life > 0 ==> forall t :: t in Needs(!env.backfill, n) ==> IsDone(r.w.doc, t)
  }

  /** Steps whose done mark this run must honour. */
  predicate Honoured(env: Env, s: Step) {
    !(s == Writeback && !env.markerPresent) && !(s == CommitStep && env.dirty)
  }

  /** No honoured step that `w` had done has lost its mark or run again. */
  ghost predicate NotRepeated(env: Env, w: World, w': World) {
    && w.log <= w'.log
    && forall s :: IsDone(w.doc, s) && Honoured(env, s) ==>
         IsDone(w'.doc, s) && forall k :: |w.log| <= k < |w'.log| ==> w'.log[k].step != s
  }

  predicate MapGrows(a: map<Id, Id>, b: map<Id, Id>) {
    forall id :: id in a ==> id in b && b[id] == a[id]
  }

  ghost predicate Kept(env: Env, w: World, w': World) {
    && NotRepeated(env, w, w')
    && (!env.backfill ==> MapGrows(w.doc.created, w'.doc.created))
    && (w.doc.priorDone.Some? && w.doc.backfillRun ==> w'.doc.priorDone == w.doc.priorDone && w'.doc.backfillRun)
  }

  /** A run in flight from `w` that is about to perform the step of rank `n`. */
  ghost predicate Fine(env: Env, w: World, r: Run, n: nat) {
    Faithful(r.w) && Ordered(r.w.log) && Ready(env, r, n) && Kept(env, w, r.w) && r.w.receipt == w.receipt
  }

  // ------------------------------------------------------------ primitives

  lemma AppendOrdered(w: World, e: Event)
    requires Faithful(w) && Ordered(w.log)
    requires forall t :: t in Needs(e.live, Rank(e.step)) ==> IsDone(w.doc, t)
    ensures Ordered(w.log + [e])
  {
    var log := w.log + [e];
    forall i, t | 0 <= i < |log| && t in Needs(log[i].live, Rank(log[i].step))
      ensures exists j :: 0 <= j < i && Backed(log[j], t)
    {
      if i < |w.log| {
        var j :| 0 <= j < i && Backed(w.log[j], t);
        assert Backed(log[j], t);
      } else {
        var b :| b in w.log && Backed(b, t);
        var j :| 0 <= j < |w.log| && w.log[j] == b;
        assert Backed(log[j], t);
      }
    }
  }

  /** Performing the step that is due. */
  lemma PerformFine(env: Env, w: World, r: Run, s: Step, outcome: Outcome)
    requires Fine(env, w, r, Rank(s)) && r.exit.None? && (IsDone(w.doc, s) ==> !Honoured(env, s))
    ensures var r' := Perform(r, Event(s, !env.backfill, outcome));
      && Faithful(r'.w) && Ordered(r'.w.log) && Kept(env, w, r'.w) && r'.w.receipt == w.receipt && r'.w.doc == r.w.doc && r'.exit.None?
      && (r'.w.life > 0 ==> Ready(env, r', Rank(s)) && Event(s, !env.backfill, outcome) in r'.w.log)
  {
    var e := Event(s, !env.backfill, outcome);
    if r.w.life > 0 {
      AppendOrdered(r.w, e);
      var r' := Perform(r, e);
      forall t | IsDone(r'.w.doc, t) ensures exists x :: x in r'.w.log && Backed(x, t) {
        var x :| x in r.w.log && Backed(x, t);
        assert x in r'.w.log;
      }
    }
  }

  /** Marking a step done once its event is in the log. */
  lemma MarkFine(env: Env, w: World, r: Run, s: Step, doc: Doc)
    requires Faithful(r.w) && Ordered(r.w.log) && Kept(env, w, r.w) && r.w.receipt == w.receipt && r.exit.None?
    requires r.w.life > 0 ==> Ready(env, r, Rank(s)) && exists e :: e in r.w.log && Backed(e, s)
    requires doc == SetMark(r.w.doc, s, Done).(created := doc.created, sha := doc.sha)
    requires r.w.life > 0 && !env.backfill ==> MapGrows(r.w.doc.created, doc.created)
    ensures Fine(env, w, Merge(r, doc), Rank(s) + 1)
  {
    var r' := Merge(r, doc);
    if r.w.life > 0 {
      assert forall t :: IsDone(r'.w.doc, t) <==> t == s || IsDone(r.w.doc, t);
      NeedsNext(!env.backfill, s);
    }
  }

  lemma NeedsNext(live: bool, s: Step)
    ensures Needs(live, Rank(s) + 1) <= Needs(live, Rank(s)) + {s}
  {}

  lemma {:induction false} DoStepFine(env: Env, w: World, r: Run, s: Step, code: int)
    requires Fine(env, w, r, Rank(s))
    ensures Fine(env, w, DoStep(s, code, env, r), Rank(s) + 1)
  {
    NeedsNext(!env.backfill, s);
    if r.exit.None? && !IsDone(r.w.doc, s) {
      if s in env.fails {
        PerformFine(env, w, r, s, Failed);
      } else {
        PerformFine(env, w, r, s, Did);
        var r1 := Perform(r, Event(s, !env.backfill, Did));
        assert r1.w.life > 0 ==> Backed(Event(s, !env.backfill, Did), s);
        MarkFine(env, w, r1, s, SetMark(r1.w.doc, s, Done));
      }
    }
  }

  lemma FewerMarks(w: World, w': World)
    requires Faithful(w) && w.log <= w'.log && forall t :: IsDone(w'.doc, t) ==> IsDone(w.doc, t)
    ensures Faithful(w')
  {
    forall t | IsDone(w'.doc, t) ensures exists x :: x in w'.log && Backed(x, t) {
      var x :| x in w.log && Backed(x, t);
      assert x in w'.log;
    }
  }

  // ------------------------------------------------------------ the particular steps

  lemma BackfillSkipFine(env: Env, w: World, r: Run, s: Step)
    requires Fine(env, w, r, Rank(s)) && env.backfill && s in {Tasks, Draft, StatusUpdate}
    ensures Fine(env, w, BackfillSkip(s, r), Rank(s) + 1)
  {
    NeedsNext(false, s);
    var r' := BackfillSkip(s, r);
    assert forall t :: t != s ==> MarkOf(r'.w.doc, t) == MarkOf(r.w.doc, t);
    assert r' != r && r.w.life > 0 ==> MarkOf(r'.w.doc, s) == Skipped && MarkOf(r.w.doc, s) == Open;
    FewerMarks(r.w, r'.w);
    if r'.exit.None? && r'.w.life > 0 {
      forall t | t in Needs(false, Rank(s) + 1) ensures IsDone(r'.w.doc, t) {
        assert t != s && t in Needs(!env.backfill, Rank(s));
        assert IsDone(r.w.doc, t) && MarkOf(r'.w.doc, t) == MarkOf(r.w.doc, t);
      }
    }
  }

  /** A change of the mark of a step that is not done, and of a growing task map. */
  lemma OpenMarkKeeps(env: Env, w: World, w1: World, w2: World, s: Step)
    requires Kept(env, w, w1) && w2.log == w1.log && !IsDone(w1.doc, s) && forall t :: t != s ==> MarkOf(w2.doc, t) == MarkOf(w1.doc, t)
    requires MapGrows(w1.doc.created, w2.doc.created) && w2.doc.priorDone == w1.doc.priorDone && w2.doc.backfillRun == w1.doc.backfillRun
    ensures Kept(env, w, w2)
  {
    hide MarkOf, Honoured;
    assert forall t :: IsDone(w1.doc, t) ==> MarkOf(w2.doc, t) == MarkOf(w1.doc, t);
  }

  lemma PartialMarks(doc: Doc, mapped: map<Id, Id>)
    ensures var doc' := SetMark(doc, Tasks, Open).(created := MergeTaskMap(doc.created, mapped));
      && (forall t :: t != Tasks ==> MarkOf(doc', t) == MarkOf(doc, t)) && (forall t :: IsDone(doc', t) ==> IsDone(doc, t))
      && MapGrows(doc.created, doc'.created) && doc'.priorDone == doc.priorDone && doc'.backfillRun == doc.backfillRun
  {}

  lemma FanPartialFine(env: Env, w: World, r: Run, mapped: map<Id, Id>)
    requires Fine(env, w, r, Rank(Tasks)) && r.exit.None? && !env.backfill && !IsDone(r.w.doc, Tasks)
    ensures var r1 := Perform(r, Event(Tasks, true, Failed));
      Fine(env, w, Stop(Merge(r1, SetMark(r1.w.doc, Tasks, Open).(created := MergeTaskMap(r1.w.doc.created, mapped))), 8), Rank(Tasks) + 1)
  {
    assert IsDone(w.doc, Tasks) ==> !Honoured(env, Tasks);
    PerformFine(env, w, r, Tasks, Failed);
    hide Faithful, Ordered, Needs, Kept, Perform, SetMark, MergeTaskMap, IsDone, MarkOf, MapGrows;
    var r1 := Perform(r, Event(Tasks, true, Failed));
    PartialMarks(r1.w.doc, mapped);
    var doc := SetMark(r1.w.doc, Tasks, Open).(created := MergeTaskMap(r1.w.doc.created, mapped));
    if r1.w.life > 0 {
      FewerMarks(r1.w, Merge(r1, doc).w);
      OpenMarkKeeps(env, w, r1.w, Merge(r1, doc).w, Tasks);
    }
  }

  lemma FanAllFine(env: Env, w: World, r: Run, all: map<Id, Id>)
    requires Fine(env, w, r, Rank(Tasks)) && r.exit.None? && !env.backfill && !IsDone(r.w.doc, Tasks)
    requires MapGrows(r.w.doc.created, all)
    ensures var r1 := Perform(r, Event(Tasks, true, Did));
      Fine(env, w, Merge(r1, SetMark(r1.w.doc, Tasks, Done).(created := all)), Rank(Tasks) + 1)
  {
    PerformFine(env, w, r, Tasks, Did);
    var r1 := Perform(r, Event(Tasks, true, Did));
    assert r1.w.life > 0 ==> Backed(Event(Tasks, true, Did), Tasks);
    MarkFine(env, w, r1, Tasks, SetMark(r1.w.doc, Tasks, Done).(created := all));
  }

  lemma TasksFine(env: Env, w: World, r: Run)
    requires Fine(env, w, r, Rank(Tasks))
    ensures Fine(env, w, TasksStep(env, r), Rank(Tasks) + 1)
  {
    NeedsNext(!env.backfill, Tasks);
    if r.exit.None? {
      if env.backfill {
        BackfillSkipFine(env, w, r, Tasks);
      } else if !IsDone(r.w.doc, Tasks) {
        match env.fanOut
        case FanFailed => PerformFine(env, w, r, Tasks, Failed);
        case FanPartial(mapped) => FanPartialFine(env, w, r, mapped);
        case FanAll(mapped, duplicates, recovered) =>
          var pairs := MergeTaskMap(r.w.doc.created, mapped);
          var all := MergeTaskMap(pairs, map id | id in duplicates - pairs.Keys && id in recovered :: recovered[id]);
          PerformFine(env, w, r, Tasks, Failed);
          FanAllFine(env, w, r, all);
      }
    }
  }

  lemma StatusFine(env: Env, w: World, r: Run)
    requires Fine(env, w, r, Rank(StatusUpdate))
    ensures Fine(env, w, StatusStep(env, r), Rank(StatusUpdate) + 1)
  {
    NeedsNext(!env.backfill, StatusUpdate);
    if r.exit.None? {
      if env.backfill {
        BackfillSkipFine(env, w, r, StatusUpdate);
      } else if IsDone(r.w.doc, StatusUpdate) || env.engagement {
        DoStepFine(env, w, r, StatusUpdate, 14);
      } else if r.w.life > 0 {
        var e := Event(StatusUpdate, true, NothingToDo);
        AppendOrdered(r.w, e);
        var r1 := r.(w := r.w.(log := r.w.log + [e]));
        forall t | IsDone(r1.w.doc, t) ensures exists x :: x in r1.w.log && Backed(x, t) {
          var x :| x in r.w.log && Backed(x, t);
          assert x in r1.w.log;
        }
        assert e in r1.w.log && Backed(e, StatusUpdate);
        MarkFine(env, w, r1, StatusUpdate, SetMark(r1.w.doc, StatusUpdate, Done));
      }
    }
  }

  lemma OpeningFine(env: Env, w: World)
    requires Faithful(w) && Ordered(w.log)
    ensures Fine(env, w, CheckMarker(env, Prelude(env, Gates(env, Run(w, None)))), 0)
  {
    var r := Prelude(env, Gates(env, Run(w, None)));
    assert r.w.doc.marks == w.doc.marks && r.w.log == w.log;
    assert forall s :: IsDone(r.w.doc, s) <==> IsDone(w.doc, s);
    FewerMarks(w, r.w);
    var r' := CheckMarker(env, r);
    assert forall s :: s != Writeback ==> MarkOf(r'.w.doc, s) == MarkOf(r.w.doc, s);
    FewerMarks(r.w, r'.w);
  }

  lemma Phase2Fine(env: Env, w: World)
    requires Faithful(w) && Ordered(w.log)
    ensures Fine(env, w, Phase2(env, Gates(env, Run(w, None))), Rank(Rollup))
  {
    hide Fine, CheckMarker, Prelude, Gates, DoStep, TasksStep, DraftStep, Faithful, Ordered;
    OpeningFine(env, w);
    var r0 := CheckMarker(env, Prelude(env, Gates(env, Run(w, None))));
    DoStepFine(env, w, r0, Writeback, 7);
    DoStepFine(env, w, DoStep(Writeback, 7, env, r0), Crm, 11);
    var r2 := DoStep(Crm, 11, env, DoStep(Writeback, 7, env, r0));
    TasksFine(env, w, r2);
    DraftFine(env, w, TasksStep(env, r2));
  }

  lemma DraftFine(env: Env, w: World, r: Run)
    requires Fine(env, w, r, Rank(Draft))
    ensures Fine(env, w, DraftStep(env, r), Rank(Rollup))
  {
    NeedsNext(!env.backfill, Draft);
    if r.exit.None? {
      if env.backfill { BackfillSkipFine(env, w, r, Draft); } else { DoStepFine(env, w, r, Draft, 9); }
    }
  }

  lemma RefuseFine(env: Env, w: World, r: Run, n: nat, refused: bool, code: int)
    requires Fine(env, w, r, n)
    ensures Fine(env, w, Refuse(refused, code, r), n)
  {}

  lemma Phase3Fine(env: Env, w: World, r: Run)
    requires Fine(env, w, r, Rank(Rollup))
    ensures Fine(env, w, Phase3(env, r), Rank(CommitStep))
  {
    hide Fine, Refuse, DoStep, StatusStep;
    RefuseFine(env, w, r, Rank(Rollup), env.unsigned, 15);
    RefuseFine(env, w, Refuse(env.unsigned, 15, r), Rank(Rollup), env.nodesBroken, 6);
    var r1 := Refuse(env.nodesBroken, 6, Refuse(env.unsigned, 15, r));
    DoStepFine(env, w, r1, Rollup, 6);
    StatusFine(env, w, DoStep(Rollup, 6, env, r1));
    DoStepFine(env, w, StatusStep(env, DoStep(Rollup, 6, env, r1)), Filed, 1);
  }

  // ------------------------------------------------------------ the receipt

  /** A receipt never forgets when it was first applied, nor that it has a commit. */
  predicate ReceiptLater(a: Option<Receipt>, b: Option<Receipt>) {
    a.Some? ==> b.Some? && b.value.firstAppliedAt == a.value.firstAppliedAt && (a.value.vaultSha.Some? ==> b.value.vaultSha.Some?)
  }

  ghost predicate Sound(w: World) { Faithful(w) && Ordered(w.log) }

  lemma ReceiptKeeps(env: Env, w: World, r: Run, sha: Option<string>)
    requires Sound(r.w) && Kept(env, w, r.w) && r.w.receipt == w.receipt
    ensures var r' := WriteReceipt(r, Compose(sha, w.receipt, env.now));
      Sound(r'.w) && Kept(env, w, r'.w) && ReceiptLater(w.receipt, r'.w.receipt)
  {
    hide Ordered;
  }

  lemma MinimumsKeep(env: Env, w: World, r: Run)
    requires Fine(env, w, r, Rank(CommitStep))
    ensures var r' := Minimums(env, w.receipt, r);
      r' == r || (r'.exit.Some? && Sound(r'.w) && Kept(env, w, r'.w) && ReceiptLater(w.receipt, r'.w.receipt))
  {
    hide Faithful, Ordered, Kept, Ready, ReceiptLater;
    ReceiptKeeps(env, w, r, OrElse(r.w.doc.sha, ShaOf(w.receipt)));
  }

  /** A commit that git refuses. */
  lemma CommitFails(env: Env, w: World, r: Run)
    requires Fine(env, w, r, Rank(CommitStep)) && r.exit.None? && env.git.GitFailed?
    requires IsDone(w.doc, CommitStep) ==> !Honoured(env, CommitStep)
    ensures var r' := Perform(r, Event(CommitStep, !env.backfill, Failed)); Sound(r'.w) && Kept(env, w, r'.w) && ReceiptLater(w.receipt, r'.w.receipt)
  {
    hide Faithful, Ordered, Kept, Ready, ReceiptLater, Perform, Backed, IsDone;
    PerformFine(env, w, r, CommitStep, Failed);
    SameReceipt(w.receipt);
  }

  /** A commit that goes through, marked with its sha. */
  lemma CommitMarked(env: Env, w: World, r: Run, sha: Option<string>)
    requires Fine(env, w, r, Rank(CommitStep)) && r.exit.None?
    requires IsDone(w.doc, CommitStep) ==> !Honoured(env, CommitStep)
    ensures var r1 := Perform(r, Event(CommitStep, !env.backfill, Did));
      var r2 := Merge(r1, SetMark(r1.w.doc, CommitStep, Done).(sha := sha));
      Sound(r2.w) && Kept(env, w, r2.w) && r2.w.receipt == w.receipt
  {
    var did := Event(CommitStep, !env.backfill, Did);
    assert Backed(did, CommitStep);
    hide Faithful, Ordered, Kept, Ready, Perform, Backed, SetMark, IsDone;
    PerformFine(env, w, r, CommitStep, Did);
    var r1 := Perform(r, did);
    var doc := SetMark(r1.w.doc, CommitStep, Done).(sha := sha);
    OnlyMark(r1.w.doc, CommitStep, Done);
    assert doc == SetMark(r1.w.doc, CommitStep, Done).(created := doc.created, sha := doc.sha);
    MarkFine(env, w, r1, CommitStep, doc);
  }

  lemma CommitKeeps(env: Env, w: World, r: Run)
    requires Fine(env, w, r, Rank(CommitStep)) && r.exit.None?
    ensures var r' := CommitAndReceipt(env, w.receipt, r);
      Sound(r'.w) && Kept(env, w, r'.w) && ReceiptLater(w.receipt, r'.w.receipt)
  {
    if IsDone(r.w.doc, CommitStep) && !env.dirty {
      hide Faithful, Ordered, Kept, Ready, ReceiptLater;
      ReceiptKeeps(env, w, r, OrElse(r.w.doc.sha, ShaOf(w.receipt)));
    } else {
      assert IsDone(w.doc, CommitStep) ==> !Honoured(env, CommitStep);
      hide Fine, Sound, Kept, ReceiptLater, Perform, Merge, SetMark, WriteReceipt, Compose, Honoured, IsDone;
      if env.git.GitFailed? {
        CommitFails(env, w, r);
      } else {
        var sha := OrElse(if env.git.Committed? then Some(env.git.sha) else ShaOf(w.receipt), env.history);
        var r1 := Perform(r, Event(CommitStep, !env.backfill, Did));
        CommitMarked(env, w, r, sha);
        ReceiptKeeps(env, w, Merge(r1, SetMark(r1.w.doc, CommitStep, Done).(sha := sha)), sha);
      }
    }
  }

  lemma SameReceipt(a: Option<Receipt>)
    ensures ReceiptLater(a, a)
  {}

  lemma OnlyMark(doc: Doc, s: Step, m: Mark)
    ensures SetMark(doc, s, m).created == doc.created
  {}

  lemma EndingKeeps(env: Env, w: World, r: Run)
    requires Fine(env, w, r, Rank(CommitStep))
    ensures var r' := CommitAndReceipt(env, w.receipt, Minimums(env, w.receipt, r));
      Sound(r'.w) && Kept(env, w, r'.w) && ReceiptLater(w.receipt, r'.w.receipt)
  {
    MinimumsKeep(env, w, r);
    SameReceipt(w.receipt);
    var r1 := Minimums(env, w.receipt, r);
    if r1 == r && r.exit.None? {
      CommitKeeps(env, w, r);
    } else {
      hide Faithful, Ordered, Kept, Ready, ReceiptLater, Minimums;
      assert CommitAndReceipt(env, w.receipt, r1) == r1;
    }
  }

  /** One apply, killed anywhere: marks stay backed by effects, effects stay in
      order, done steps are not repeated, and the receipt does not regress. */
  lemma ApplyKeeps(env: Env, w: World)
    requires Sound(w)
    ensures var w' := Apply(env, w).w; Sound(w') && Kept(env, w, w') && ReceiptLater(w.receipt, w'.receipt)
  {
    Phase2Fine(env, w);
    Phase3Fine(env, w, Phase2(env, Gates(env, Run(w, None))));
    EndingKeeps(env, w, Phase3(env, Phase2(env, Gates(env, Run(w, None)))));
  }

  lemma {:induction false} CampaignKeeps(w: World, runs: seq<Invocation>)
    requires Sound(w)
    ensures Sound(Campaign(w, runs)) && ReceiptLater(w.receipt, Campaign(w, runs).receipt)
    ensures (forall k :: 0 <= k < |runs| ==> !runs[k].env.backfill) ==> MapGrows(w.doc.created, Campaign(w, runs).doc.created)
    decreases |runs|
  {
    if runs != [] {
      var w0 := w.(life := runs[0].life);
      assert Sound(w0) by { assert forall s :: IsDone(w0.doc, s) == IsDone(w.doc, s); }
      ApplyKeeps(runs[0].env, w0);
      CampaignKeeps(Apply(runs[0].env, w0).w, runs[1..]);
    }
  }

  /** In every state that any mix of killed and completed applies can reach, a
      done mark is backed by an effect, and every live effect comes after the
      effects of all the steps before it. */
  lemma ReachableIsSound(runs: seq<Invocation>)
    ensures Sound(Campaign(Fresh, runs))
  {
    CampaignKeeps(Fresh, runs);
  }

  // ------------------------------------------------------------ completion

  predicate Smooth(env: Env) {
    && !env.backfill && env.gate.None? && env.fails == {} && !env.unsigned && !env.nodesBroken && !env.shortfall
    && !env.git.GitFailed? && env.fanOut.FanAll? && env.fanOut.duplicates <= env.fanOut.recovered.Keys
  }

  /** Nothing has gone wrong, the steps before rank `n` are done, and enough life is left. */
  ghost predicate OnTrack(r: Run, n: nat) {
    r.exit.None? && r.w.life > 18 - 2 * n && n <= 7 && forall t :: Rank(t) < n ==> IsDone(r.w.doc, t)
  }

  lemma SmoothStep(s: Step, code: int, env: Env, r: Run)
    requires Smooth(env) && OnTrack(r, Rank(s)) && Rank(s) < 7
    ensures OnTrack(DoStep(s, code, env, r), Rank(s) + 1)
  {
    var r' := DoStep(s, code, env, r);
    assert forall t :: t != s ==> MarkOf(r'.w.doc, t) == MarkOf(r.w.doc, t);
  }

  lemma SmoothTasks(env: Env, r: Run)
    requires Smooth(env) && OnTrack(r, Rank(Tasks))
    ensures OnTrack(TasksStep(env, r), Rank(Tasks) + 1)
  {
    var r' := TasksStep(env, r);
    assert forall t :: t != Tasks ==> MarkOf(r'.w.doc, t) == MarkOf(r.w.doc, t);
  }

  lemma SmoothStatus(env: Env, r: Run)
    requires Smooth(env) && OnTrack(r, Rank(StatusUpdate))
    ensures OnTrack(StatusStep(env, r), Rank(StatusUpdate) + 1)
  {
    if IsDone(r.w.doc, StatusUpdate) || env.engagement {
      SmoothStep(StatusUpdate, 14, env, r);
    } else {
      var r' := StatusStep(env, r);
      assert forall t :: t != StatusUpdate ==> MarkOf(r'.w.doc, t) == MarkOf(r.w.doc, t);
    }
  }

  lemma SmoothOpening(env: Env, w: World)
    requires Smooth(env) && w.life > 20 && (ShaOf(w.receipt).None? || env.force)
    ensures OnTrack(DoStep(Crm, 11, env, DoStep(Writeback, 7, env, CheckMarker(env, Prelude(env, Gates(env, Run(w, None)))))), 2)
  {
    var r0 := CheckMarker(env, Prelude(env, Gates(env, Run(w, None))));
    SmoothStep(Writeback, 7, env, r0);
    SmoothStep(Crm, 11, env, DoStep(Writeback, 7, env, r0));
  }

  lemma SmoothMiddle(env: Env, r: Run)
    requires Smooth(env) && OnTrack(r, 2)
    ensures OnTrack(DraftStep(env, TasksStep(env, r)), 4)
  {
    SmoothTasks(env, r);
    SmoothStep(Draft, 9, env, TasksStep(env, r));
  }

  lemma SmoothPhase3(env: Env, r: Run)
    requires Smooth(env) && OnTrack(r, 4)
    ensures OnTrack(Phase3(env, r), 7)
  {
    SmoothStep(Rollup, 6, env, r);
    SmoothStatus(env, DoStep(Rollup, 6, env, r));
    SmoothStep(Filed, 1, env, StatusStep(env, DoStep(Rollup, 6, env, r)));
  }

  /** Wherever earlier runs were killed, a live apply that meets no failure exits
      0 with every step done and a receipt written. */
  lemma SmoothApplyFinishes(env: Env, w: World)
    requires Smooth(env) && w.life > 20 && (ShaOf(w.receipt).None? || env.force)
    ensures var r := Apply(env, w);
      r.exit == Some(0) && r.w.receipt.Some? && r.w.receipt.value.lastRunAt == env.now &&
      forall s :: IsDone(r.w.doc, s)
  {
    SmoothOpening(env, w);
    SmoothMiddle(env, DoStep(Crm, 11, env, DoStep(Writeback, 7, env, CheckMarker(env, Prelude(env, Gates(env, Run(w, None)))))));
    var r4 := Phase2(env, Gates(env, Run(w, None)));
    SmoothPhase3(env, r4);
    SmoothCommit(env, w.receipt, Phase3(env, r4));
  }

  lemma SmoothCommit(env: Env, prior: Option<Receipt>, r: Run)
    requires Smooth(env) && OnTrack(r, 7)
    ensures var r' := CommitAndReceipt(env, prior, r);
      r'.exit == Some(0) && r'.w.receipt.Some? && r'.w.receipt.value.lastRunAt == env.now && forall s :: IsDone(r'.w.doc, s)
  {
    var r' := CommitAndReceipt(env, prior, r);
    assert forall t :: t != CommitStep ==> MarkOf(r'.w.doc, t) == MarkOf(r.w.doc, t);
    forall s ensures IsDone(r'.w.doc, s) { if s != CommitStep { assert Rank(s) < 7; } }
  }

  // ------------------------------------------------------------ what a backfill forgets

  lemma StepKeepsCreated(s: Step, code: int, env: Env, r: Run)
    ensures DoStep(s, code, env, r).w.doc.created == r.w.doc.created
  {}

  lemma LaterStepsKeepCreated(env: Env, r: Run)
    requires env.backfill
    ensures Phase3(env, DraftStep(env, r)).w.doc.created == r.w.doc.created
  {
    var r4 := Refuse(env.nodesBroken, 6, Refuse(env.unsigned, 15, DraftStep(env, r)));
    assert r4.w.doc.created == r.w.doc.created;
    StepKeepsCreated(Rollup, 6, env, r4);
    var r5 := DoStep(Rollup, 6, env, r4);
    StepKeepsCreated(Filed, 1, env, StatusStep(env, r5));
  }

  /** Any backfill apply that gets past the CRM step with `tasks` unfinished
      leaves an empty created-task map, whatever had been created. */
  lemma BackfillForgets(env: Env, w: World)
    requires env.backfill && env.gate.None? && ShaOf(w.receipt).None? && Writeback !in env.fails && Crm !in env.fails
    requires w.life > 10 && MarkOf(w.doc, Tasks).Open?
    ensures Apply(env, w).w.doc.created == map[]
  {
    hide Phase3, DoStep, DraftStep, TasksStep, CheckMarker, Prelude, MarkOf;
    var r0 := CheckMarker(env, Prelude(env, Gates(env, Run(w, None))));
    StillOpen(env, w);
    var r1 := DoStep(Writeback, 7, env, r0);
    StepLeavesOpen(Writeback, 7, env, r0);
    var r2 := DoStep(Crm, 11, env, r1);
    StepLeavesOpen(Crm, 11, env, r1);
    TasksForget(env, r2);
    LaterStepsKeepCreated(env, TasksStep(env, r2));
    EndKeepsCreated(env, w.receipt, Phase3(env, DraftStep(env, TasksStep(env, r2))));
  }

  lemma OpeningKeepsCreated(env: Env, w: World)
    ensures CheckMarker(env, Prelude(env, Gates(env, Run(w, None)))).w.doc.created == w.doc.created
    ensures MarkOf(CheckMarker(env, Prelude(env, Gates(env, Run(w, None)))).w.doc, Tasks) == MarkOf(w.doc, Tasks)
  {}

  lemma StepKeepsTasks(s: Step, code: int, env: Env, r: Run)
    requires s != Tasks
    ensures MarkOf(DoStep(s, code, env, r).w.doc, Tasks) == MarkOf(r.w.doc, Tasks)
  {}

  lemma ClosedTasksKeepCreated(env: Env, r: Run)
    requires env.backfill && !MarkOf(r.w.doc, Tasks).Open?
    ensures TasksStep(env, r).w.doc.created == r.w.doc.created
  {}

  /** A backfill apply that finds `tasks` done or already skipped keeps the map. */
  lemma BackfillKeeps(env: Env, w: World)
    requires env.backfill && !MarkOf(w.doc, Tasks).Open?
    ensures Apply(env, w).w.doc.created == w.doc.created
  {
    hide Phase3, DoStep, DraftStep, TasksStep, CheckMarker, Prelude, MarkOf;
    var r0 := CheckMarker(env, Prelude(env, Gates(env, Run(w, None))));
    OpeningKeepsCreated(env, w);
    var r1 := DoStep(Writeback, 7, env, r0);
    StepKeepsTasks(Writeback, 7, env, r0);
    StepKeepsCreated(Writeback, 7, env, r0);
    var r2 := DoStep(Crm, 11, env, r1);
    StepKeepsTasks(Crm, 11, env, r1);
    StepKeepsCreated(Crm, 11, env, r1);
    ClosedTasksKeepCreated(env, r2);
    LaterStepsKeepCreated(env, TasksStep(env, r2));
    EndKeepsCreated(env, w.receipt, Phase3(env, DraftStep(env, TasksStep(env, r2))));
  }

  /** Which tasks exist is remembered by a backfill apply that gets past the CRM step
      exactly when `tasks` was done or already skipped, or nothing had been created. */
  lemma BackfillKeepsCreatedTasksIff(env: Env, w: World)
    requires env.backfill && env.gate.None? && ShaOf(w.receipt).None? && Writeback !in env.fails && Crm !in env.fails
    requires w.life > 10
    ensures Apply(env, w).w.doc.created == w.doc.created <==> !MarkOf(w.doc, Tasks).Open? || w.doc.created == map[]
  {
    hide Apply, MarkOf;
    if MarkOf(w.doc, Tasks).Open? { BackfillForgets(env, w); } else { BackfillKeeps(env, w); }
  }

  lemma StillOpen(env: Env, w: World)
    requires env.backfill && env.gate.None? && ShaOf(w.receipt).None? && w.life > 10 && MarkOf(w.doc, Tasks).Open?
    ensures var r0 := CheckMarker(env, Prelude(env, Gates(env, Run(w, None)))); MarkOf(r0.w.doc, Tasks).Open? && r0.w.life > 7 && r0.exit.None?
  {}

  lemma StepLeavesOpen(s: Step, code: int, env: Env, r: Run)
    requires MarkOf(r.w.doc, Tasks).Open? && r.w.life > 2 && r.exit.None? && s != Tasks && s !in env.fails
    ensures var r' := DoStep(s, code, env, r); MarkOf(r'.w.doc, Tasks).Open? && r'.w.life + 2 >= r.w.life && r'.exit.None?
  {}

  lemma TasksForget(env: Env, r: Run)
    requires env.backfill && MarkOf(r.w.doc, Tasks).Open? && r.w.life > 0 && r.exit.None?
    ensures TasksStep(env, r).w.doc.created == map[]
  {}

  lemma EndKeepsCreated(env: Env, prior: Option<Receipt>, r: Run)
    ensures CommitAndReceipt(env, prior, Minimums(env, prior, r)).w.doc.created == r.w.doc.created
  {}

  /** A live run whose fan-out fails halfway leaves such a state behind. */
  lemma HalfwayFanOut(live: Env)
    requires live == Env(false, false, None, "now", true, {}, FanPartial(map["c1" := "t1"]), false, false, true, false, false, NothingToCommit, None)
    ensures var w := Apply(live, Fresh.(life := 50)).w;
      w.doc.created == map["c1" := "t1"] && MarkOf(w.doc, Tasks).Open? && w.receipt.None?
  {
    var r2 := DoStep(Crm, 11, live, DoStep(Writeback, 7, live, Run(Fresh.(life := 50), None)));
    assert MarkOf(r2.w.doc, Tasks) == Open && r2.exit.None? && r2.w.life == 46 && r2.w.doc.created == map[];
    var r3 := TasksStep(live, r2);
    assert r3.w.doc.created == map["c1" := "t1"] && r3.exit == Some(8);
  }
}
