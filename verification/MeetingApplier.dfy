/** The per-meeting apply as the program runs it: one method per block of
    statements, each returning early through `exit`. */
module MeetingApplier {
  import opened Common
  import opened MeetingApply

  class Applier {
    var doc: Doc
    var receipt: Option<Receipt>
    var log: seq<Event>
    var life: nat
    var exit: Option<int>

    constructor (w: World)
      ensures Outside() == w && exit == None
    {
      doc, receipt, log, life := w.doc, w.receipt, w.log, w.life;
      exit := None;
    }

    function Outside(): World reads this { World(doc, receipt, log, life) }

    function State(): Run reads this { Run(Outside(), exit) }

    method MergeProgress(updated: Doc)
      modifies this
      ensures State() == old(Merge(State(), updated))
    {
      if life > 0 { doc, life := updated, life - 1; }
    }

    method RunChild(e: Event)
      modifies this
      ensures State() == old(Perform(State(), e))
    {
      if life > 0 { log, life := log + [e], life - 1; }
    }

    method SaveReceipt(r: Receipt)
      modifies this
      ensures State() == old(WriteReceipt(State(), r))
    {
      if life > 0 { receipt, life := Some(r), life - 1; }
    }

    method PlainStep(s: Step, code: int, env: Env)
      modifies this
      ensures State() == old(DoStep(s, code, env, State()))
    {
      if exit.Some? || IsDone(doc, s) { return; }
      if s in env.fails {
        RunChild(Event(s, !env.backfill, Failed));
        exit := Some(code);
        return;
      }
      RunChild(Event(s, !env.backfill, Did));
      MergeProgress(SetMark(doc, s, Done));
    }

    method SkipForBackfill(s: Step)
      modifies this
      ensures State() == old(BackfillSkip(s, State()))
    {
      if exit.Some? || !MarkOf(doc, s).Open? { return; }
      var skipped := SetMark(doc, s, Skipped);
      if s == Tasks { skipped := skipped.(created := map[]); }
      MergeProgress(skipped);
    }

    method FanOutTasks(env: Env)
      modifies this
      ensures State() == old(TasksStep(env, State()))
    {
      if exit.Some? { return; }
      if env.backfill { SkipForBackfill(Tasks); return; }
      if IsDone(doc, Tasks) { return; }
      match env.fanOut {
        case FanFailed =>
          RunChild(Event(Tasks, true, Failed));
          exit := Some(8);
        case FanPartial(mapped) =>
          RunChild(Event(Tasks, true, Failed));
          MergeProgress(SetMark(doc, Tasks, Open).(created := MergeTaskMap(doc.created, mapped)));
          exit := Some(8);
        case FanAll(mapped, duplicates, recovered) =>
          var pairs := MergeTaskMap(doc.created, mapped);
          var missing := duplicates - pairs.Keys;
          pairs := MergeTaskMap(pairs, map id | id in missing && id in recovered :: recovered[id]);
          if !(duplicates <= pairs.Keys) {
            RunChild(Event(Tasks, true, Failed));
            exit := Some(8);
          } else {
            RunChild(Event(Tasks, true, Did));
            MergeProgress(SetMark(doc, Tasks, Done).(created := pairs));
          }
      }
    }

    method DraftRecap(env: Env)
      modifies this
      ensures State() == old(DraftStep(env, State()))
    {
      if exit.Some? { return; }
      if env.backfill { SkipForBackfill(Draft); } else { PlainStep(Draft, 9, env); }
    }

    method UpdateStatus(env: Env)
      modifies this
      ensures State() == old(StatusStep(env, State()))
    {
      if exit.Some? { return; }
      if env.backfill {
        SkipForBackfill(StatusUpdate);
      } else if IsDone(doc, StatusUpdate) || env.engagement {
        PlainStep(StatusUpdate, 14, env);
      } else {
        if life > 0 { log := log + [Event(StatusUpdate, true, NothingToDo)]; }
        MergeProgress(SetMark(doc, StatusUpdate, Done));
      }
    }

    method Resume(env: Env)
      modifies this
      ensures State() == old(CheckMarker(env, Prelude(env, State())))
    {
      if exit.Some? { return; }
      if env.backfill && !doc.backfillRun {
        var names := Snapshot(doc);
        MergeProgress(doc.(backfillRun := true));
        MergeProgress(doc.(priorDone := Some(names)));
      }
      if IsDone(doc, Writeback) && !env.markerPresent {
        MergeProgress(SetMark(doc, Writeback, Open));
      }
    }

    method Finish(env: Env, prior: Option<Receipt>)
      modifies this
      ensures State() == old(CommitAndReceipt(env, prior, Minimums(env, prior, State())))
    {
      if exit.Some? { return; }
      if env.shortfall && !env.backfill {
        SaveReceipt(Compose(OrElse(doc.sha, ShaOf(prior)), prior, env.now));
        exit := Some(9);
        return;
      }
      var sha := OrElse(doc.sha, ShaOf(prior));
      if !IsDone(doc, CommitStep) || env.dirty {
        if env.git.GitFailed? {
          RunChild(Event(CommitStep, !env.backfill, Failed));
          exit := Some(10);
          return;
        }
        RunChild(Event(CommitStep, !env.backfill, Did));
        sha := OrElse(if env.git.Committed? then Some(env.git.sha) else ShaOf(prior), env.history);
        MergeProgress(SetMark(doc, CommitStep, Done).(sha := sha));
      }
      SaveReceipt(Compose(sha, prior, env.now));
      exit := Some(0);
    }

    method ApplyWrites(env: Env)
      requires exit == None
      modifies this
      ensures State() == old(Apply(env, Outside()))
    {
      var prior := receipt;
      if env.gate.Some? {
        exit := env.gate;
      } else if ShaOf(prior).Some? && !env.force {
        exit := Some(0);
      }
      Resume(env);
      PlainStep(Writeback, 7, env);
      PlainStep(Crm, 11, env);
      FanOutTasks(env);
      DraftRecap(env);
      if exit == None && env.unsigned { exit := Some(15); }
      if exit == None && env.nodesBroken { exit := Some(6); }
      PlainStep(Rollup, 6, env);
      UpdateStatus(env);
      PlainStep(Filed, 1, env);
      Finish(env, prior);
    }
  }
}
