/** The per-meeting apply: eight checkpointed effects in a fixed order, a commit
    and a receipt, resumable after a kill at any point.  `life` counts the
    writes and effects still to happen, as in BatchApply; `lost` is not needed
    here because no claim depends on it. */
module MeetingApply {
  import opened Common

  datatype Step = Writeback | Crm | Tasks | Draft | Rollup | StatusUpdate | Filed | CommitStep

  function Rank(s: Step): nat {
    match s
    case Writeback => 0 case Crm => 1 case Tasks => 2 case Draft => 3
    case Rollup => 4 case StatusUpdate => 5 case Filed => 6 case CommitStep => 7
  }

  /** The value under one key of progress.json. */
  datatype Mark = Open | Skipped | Done

  /** progress.json: the marks, the created-task map kept under `tasks`, the
      recorded commit, and the backfill snapshot. */
  datatype Doc = Doc(marks: map<Step, Mark>, created: map<Id, Id>, sha: Option<string>,
                     backfillRun: bool, priorDone: Option<set<Step>>)

  datatype Receipt = Receipt(firstAppliedAt: string, vaultSha: Option<string>, lastRunAt: string)

  /** An effect that happened, one that failed, or a status step with no engagement. */
  datatype Event = Event(step: Step, live: bool, outcome: Outcome)
  datatype Outcome = Did | Failed | NothingToDo

  datatype World = World(doc: Doc, receipt: Option<Receipt>, log: seq<Event>, life: nat)

  /** What the fan-out of tasks answers: `mapped` are the pairs it reports,
      `recovered` those found again on the bus for ids it skipped as duplicates. */
  datatype FanOut =
    | FanAll(mapped: map<Id, Id>, duplicates: set<Id>, recovered: map<Id, Id>)
    | FanPartial(mapped: map<Id, Id>)
    | FanFailed

  datatype Git = Committed(sha: string) | NothingToCommit | GitFailed

  /** Everything outside the process during one run. */
  datatype Env = Env(
    backfill: bool, force: bool, gate: Option<int>, now: string,
    markerPresent: bool, fails: set<Step>, fanOut: FanOut, unsigned: bool, nodesBroken: bool,
    engagement: bool, shortfall: bool, dirty: bool, git: Git, history: Option<string>)

  // ------------------------------------------------------------ primitives

  function MarkOf(doc: Doc, s: Step): Mark {
    if s in doc.marks then doc.marks[s] else Open
  }

  predicate IsDone(doc: Doc, s: Step) { MarkOf(doc, s).Done? }

  function SetMark(doc: Doc, s: Step, m: Mark): Doc {
    doc.(marks := doc.marks[s := m])
  }

  /** A process in flight; `exit` is set once it has returned. */
  datatype Run = Run(w: World, exit: Option<int>)

  function Merge(r: Run, doc: Doc): Run {
    if r.w.life == 0 then r else r.(w := r.w.(doc := doc, life := r.w.life - 1))
  }

  function Perform(r: Run, e: Event): Run {
    if r.w.life == 0 then r else r.(w := r.w.(log := r.w.log + [e], life := r.w.life - 1))
  }

  function WriteReceipt(r: Run, receipt: Receipt): Run {
    if r.w.life == 0 then r else r.(w := r.w.(receipt := Some(receipt), life := r.w.life - 1))
  }

  function Stop(r: Run, code: int): Run { r.(exit := Some(code)) }

  // ------------------------------------------------------------ steps

  /** An ordinary checkpointed step: skip it when done, else run it and mark it. */
  function DoStep(s: Step, code: int, env: Env, r: Run): Run {
    if r.exit.Some? || IsDone(r.w.doc, s) then r
    else if s in env.fails then Stop(Perform(r, Event(s, !env.backfill, Failed)), code)
    else
      var r1 := Perform(r, Event(s, !env.backfill, Did));
      Merge(r1, SetMark(r1.w.doc, s, Done))
  }

  /** A backfill apply never downgrades a step that ran live. */
  function BackfillSkip(s: Step, r: Run): Run {
    if r.exit.Some? || !MarkOf(r.w.doc, s).Open? then r
    else
      var doc := SetMark(r.w.doc, s, Skipped);
      Merge(r, if s == Tasks then doc.(created := map[]) else doc)
  }

  /** Dictionary union in which the pairs already recorded win. */
  function MergeTaskMap(existing: map<Id, Id>, reported: map<Id, Id>): map<Id, Id> {
    reported + existing
  }

  function TasksStep(env: Env, r: Run): Run {
    if r.exit.Some? then r
    else if env.backfill then BackfillSkip(Tasks, r)
    else if IsDone(r.w.doc, Tasks) then r
    else
      match env.fanOut
      case FanFailed => Stop(Perform(r, Event(Tasks, true, Failed)), 8)
      case FanPartial(mapped) =>
        var r1 := Perform(r, Event(Tasks, true, Failed));
        Stop(Merge(r1, SetMark(r1.w.doc, Tasks, Open).(created := MergeTaskMap(r1.w.doc.created, mapped))), 8)
      case FanAll(mapped, duplicates, recovered) =>
        var pairs := MergeTaskMap(r.w.doc.created, mapped);
        var all := MergeTaskMap(pairs, map id | id in duplicates - pairs.Keys && id in recovered :: recovered[id]);
        if !(duplicates <= all.Keys) then Stop(Perform(r, Event(Tasks, true, Failed)), 8)
        else
          var r1 := Perform(r, Event(Tasks, true, Did));
          Merge(r1, SetMark(r1.w.doc, Tasks, Done).(created := all))
  }

  function StatusStep(env: Env, r: Run): Run {
    if r.exit.Some? then r
    else if env.backfill then BackfillSkip(StatusUpdate, r)
    else if IsDone(r.w.doc, StatusUpdate) || env.engagement then DoStep(StatusUpdate, 14, env, r)
    else
      var r1 := if r.w.life == 0 then r else r.(w := r.w.(log := r.w.log + [Event(StatusUpdate, true, NothingToDo)]));
      Merge(r1, SetMark(r1.w.doc, StatusUpdate, Done))
  }

  function DraftStep(env: Env, r: Run): Run {
    if r.exit.Some? then r
    else if env.backfill then BackfillSkip(Draft, r)
    else DoStep(Draft, 9, env, r)
  }

  /** The steps a backfill skips that were done before the first backfill apply. */
  function Snapshot(doc: Doc): set<Step> {
    set s | s in {Tasks, Draft, StatusUpdate} && IsDone(doc, s)
  }

  function Prelude(env: Env, r: Run): Run {
    if r.exit.Some? || !env.backfill || r.w.doc.backfillRun then r
    else
      var names := Snapshot(r.w.doc);
      var r1 := Merge(r, r.w.doc.(backfillRun := true));
      Merge(r1, r1.w.doc.(priorDone := Some(names)))
  }

  /** A done writeback whose page lost its marker is reset and redone. */
  function CheckMarker(env: Env, r: Run): Run {
    if r.exit.Some? || !IsDone(r.w.doc, Writeback) || env.markerPresent then r
    else Merge(r, SetMark(r.w.doc, Writeback, Open))
  }

  // ------------------------------------------------------------ commit and receipt

  function ShaOf(receipt: Option<Receipt>): Option<string> {
    if receipt.Some? then receipt.value.vaultSha else None
  }

  function OrElse(a: Option<string>, b: Option<string>): Option<string> {
    if a.Some? then a else b
  }

  function Compose(sha: Option<string>, prior: Option<Receipt>, now: string): Receipt {
    Receipt(if prior.Some? then prior.value.firstAppliedAt else now, OrElse(sha, ShaOf(prior)), now)
  }

  /** Too few results on an acceptance meeting: record the shortfall, never commit. */
  function Minimums(env: Env, prior: Option<Receipt>, r: Run): Run {
    if r.exit.Some? || !env.shortfall || env.backfill then r
    else Stop(WriteReceipt(r, Compose(OrElse(r.w.doc.sha, ShaOf(prior)), prior, env.now)), 9)
  }

  function CommitAndReceipt(env: Env, prior: Option<Receipt>, r: Run): Run {
    if r.exit.Some? then r
    else if IsDone(r.w.doc, CommitStep) && !env.dirty then
      Stop(WriteReceipt(r, Compose(OrElse(r.w.doc.sha, ShaOf(prior)), prior, env.now)), 0)
    else if env.git.GitFailed? then Stop(Perform(r, Event(CommitStep, !env.backfill, Failed)), 10)
    else
      var sha := OrElse(if env.git.Committed? then Some(env.git.sha) else ShaOf(prior), env.history);
      var r1 := Perform(r, Event(CommitStep, !env.backfill, Did));
      var r2 := Merge(r1, SetMark(r1.w.doc, CommitStep, Done).(sha := sha));
      Stop(WriteReceipt(r2, Compose(sha, prior, env.now)), 0)
  }

  // ------------------------------------------------------------ the whole apply

  /** The checks that return before anything is written. */
  function Gates(env: Env, r: Run): Run {
    if env.gate.Some? then Stop(r, env.gate.value)
    else if ShaOf(r.w.receipt).Some? && !env.force then Stop(r, 0)
    else r
  }

  function Refuse(refused: bool, code: int, r: Run): Run {
    if r.exit.Some? || !refused then r else Stop(r, code)
  }

  function Phase2(env: Env, r: Run): Run {
    DraftStep(env, TasksStep(env, DoStep(Crm, 11, env, DoStep(Writeback, 7, env, CheckMarker(env, Prelude(env, r))))))
  }

  function Phase3(env: Env, r: Run): Run {
    DoStep(Filed, 1, env, StatusStep(env, DoStep(Rollup, 6, env, Refuse(env.nodesBroken, 6, Refuse(env.unsigned, 15, r)))))
  }

  function Apply(env: Env, w: World): Run {
    CommitAndReceipt(env, w.receipt, Minimums(env, w.receipt, Phase3(env, Phase2(env, Gates(env, Run(w, None))))))
  }

  // ------------------------------------------------------------ campaigns

  /** Any mix of runs, each with its own surroundings and its own death. */
  datatype Invocation = Invocation(env: Env, life: nat)

  function Campaign(w: World, runs: seq<Invocation>): World
    decreases |runs|
  {
    if runs == [] then w else Campaign(Apply(runs[0].env, w.(life := runs[0].life)).w, runs[1..])
  }

  const Fresh := World(Doc(map[], map[], None, false, None), None, [], 0)
}
