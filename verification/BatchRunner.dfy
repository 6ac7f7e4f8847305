/** The apply command as the program runs it: progress mutated in memory, saved
    whole after every effect.  Every method is proved against the run
    functions of BatchApply, whose properties are proved beside it. */
module BatchRunner {
  import opened Common
  import opened BatchApply

  class Runner {
    const batch: Batch
    var disk: Progress
    var log: seq<Effect>
    var life: nat
    var lost: bool
    var prog: Progress
    var failed: nat

    constructor (batch: Batch, w: World)
      ensures this.batch == batch && Outside() == w && prog == w.disk && failed == 0
    {
      this.batch := batch;
      disk, log, life, lost := w.disk, w.log, w.life, w.lost;
      prog, failed := w.disk, 0;
    }

    function Outside(): World reads this { World(disk, log, life, lost) }

    function State(): Run reads this { Run(prog, Outside(), failed) }

    method SaveBatch()
      modifies this
      ensures State() == old(Checkpoint(State(), prog))
    {
      if life > 0 {
        disk, life := prog, life - 1;
      }
    }

    method Perform(e: Effect)
      modifies this
      ensures State() == old(State().(w := BatchApply.Perform(Outside(), e)))
    {
      if life > 0 {
        log, life := log + [e], life - 1;
        lost := lost || life == 0;
      }
    }

    method ApplyMeetings(closed: bool, env: Env)
      modifies this
      ensures State() == old(ApplyRows(batch, 0, closed, env, State()))
    {
      ghost var start := State();
      for i := 0 to |batch.rows|
        invariant ApplyRows(batch, i, closed, env, State()) == ApplyRows(batch, 0, closed, env, start)
      {
        var m := batch.rows[i];
        if !m.alreadyApplied {
          var entry := Entry(prog, m.id);
          prog := SetRow(prog, m.id, entry);
          if entry.dryExit == Some(0) && entry.applyExit != Some(0) {
            if closed {
              failed := failed + 1;
            } else {
              var rc := env.launchRc(m.id);
              Perform(Launch(m.id, rc));
              prog := SetRow(prog, m.id, entry.(applyExit := Some(rc)));
              SaveBatch();
              if rc != 0 {
                failed := failed + 1;
              }
            }
          }
        }
      }
    }

    method RunRollup(ok: set<Id>, env: Env)
      requires prog.post.Post?
      modifies this
      ensures State() == old(RollupStep(ok, env, State()))
    {
      var post := prog.post;
      if post.rollupIds != Some(ok) {
        Perform(Rollup(ok, env.rollupRc));
        if env.rollupRc == 0 {
          post := post.(rollupIds := Some(ok), rollupLastExit := None);
        } else {
          post := post.(rollupLastExit := Some(env.rollupRc));
        }
        prog := prog.(post := post);
        SaveBatch();
      }
    }

    method RunStatusPairs(ok: set<Id>, env: Env)
      requires prog.post.Post?
      modifies this
      ensures State() == old(StatusLoop(batch, ok, 0, env, State()))
    {
      ghost var start := State();
      for i := 0 to |batch.order|
        invariant prog.post.Post?
        invariant StatusLoop(batch, ok, i, env, State()) == StatusLoop(batch, ok, 0, env, start)
      {
        var pair := batch.order[i];
        var post, ids := prog.post, PairIds(batch, ok, pair);
        var k := Find(post.statusPairs, pair);
        var known := k < |post.statusPairs|;
        if ids != {} && !(known && post.statusPairs[k].exit == 0 && post.statusPairs[k].okIds == ids) {
          assert post.history + [] == post.history;
          if known {
            post := post.(history := post.history + [post.statusPairs[k]], statusPairs := Without(post.statusPairs, pair));
          }
          var (rc, rel) := env.status(pair);
          var row := StatusRow(pair, rc, rel, ids);
          Perform(StatusRun(row));
          prog := prog.(post := post.(statusPairs := post.statusPairs + [row]));
          SaveBatch();
        }
      }
    }

    method CommitPostBatch(env: Env)
      requires prog.post.Post?
      modifies this
      ensures State() == old(CommitStep(env, State()))
    {
      match env.commit {
        case Committed(c) =>
          Perform(CommitDone(c));
          prog := prog.(post := prog.post.(commit := Some(c)));
        case Failed(code) =>
          Perform(CommitFailed(code));
          prog := prog.(post := prog.post.(commitError := Some(code)));
      }
      SaveBatch();
    }

    /** A locked apply run that passed its preflight. */
    method ApplyLocked(env: Env)
      requires prog == disk && failed == 0
      modifies this
      ensures State() == old(ApplyRun(batch, env, Outside()))
    {
      var closed := PostCommitted(prog);
      SaveBatch();
      ApplyMeetings(closed, env);
      var authorized, ok := Authorized(batch, prog), AllOk(batch, prog);
      if authorized == {} {
        if !prog.post.Skipped? {
          prog := prog.(post := Skipped);
          SaveBatch();
        }
      } else if Attempted(batch, prog) == authorized && !(PostCommitted(prog) && EffectsOk(prog)) {
        prog := prog.(post := Normalize(prog.post).(failedIds := authorized - ok));
        SaveBatch();
        RunRollup(ok, env);
        RunStatusPairs(ok, env);
        CommitPostBatch(env);
      }
    }
  }
}
