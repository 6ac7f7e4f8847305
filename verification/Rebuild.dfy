/** Rebuild and swap: a store is built aside and renamed over the live one, which
    is first moved to a backup.  An exception may strike at any point (its handler
    then tries to move the backup back), and the process may be killed between any
    two renames (no handler runs). */
module Rebuild {
  import opened Common
  import Reconcile

  /** A store directory: the rows of the collection and its size in bytes. */
  datatype Store = Store(rows: seq<Reconcile.Row>, size: nat) {
    function Count(): nat { |rows| }
  }

  /** `backups` are the stores moved away by this run and by earlier ones, newest last. */
  datatype Dirs = Dirs(live: Option<Store>, temp: Option<Store>, backups: seq<Store>)

  datatype Point =
    | Nowhere
    | BeforeBuild | DuringBuild(partial: Store) | AfterBuild
    | BeforeBackup | BeforePromote | AfterPromote

  /** `built` is the store a build that is not interrupted yields; `backOk` says
      whether the handler's rename succeeds; `renames` is how many renames the
      process lives to make. */
  datatype Env = Env(built: Store, failed: nat, total: nat, dryRun: bool, allowShrink: bool, force: bool,
                     at: Point, backOk: bool, renames: nat)

  datatype Reason = EmptyTemp | Shrunk | Runaway | TooManyFailures

  function LiveCount(d: Dirs): nat { if d.live.Some? then d.live.value.Count() else 0 }
  function LiveSize(d: Dirs): nat { if d.live.Some? then d.live.value.size else 0 }

  /** Every guard passes or is overridden: the temp store is not empty, holds at
      least a quarter of the live count, is at most twenty times the live size, and
      at most a fifth of the files failed. */
  predicate GuardsPass(env: Env, d: Dirs) {
    && env.built.Count() > 0
    && (LiveCount(d) == 0 || env.allowShrink || 4 * env.built.Count() >= LiveCount(d))
    && (LiveSize(d) == 0 || env.built.size <= 20 * LiveSize(d))
    && (env.total == 0 || env.force || 5 * env.failed <= env.total)
  }

  datatype Process = Process(d: Dirs, renames: nat)

  function MoveLiveAway(p: Process): Process {
    if p.renames == 0 || p.d.live.None? then p
    else Process(p.d.(live := None, backups := p.d.backups + [p.d.live.value]), p.renames - 1)
  }

  function MoveTempIn(p: Process): Process {
    if p.renames == 0 || p.d.temp.None? then p
    else Process(p.d.(live := p.d.temp, temp := None), p.renames - 1)
  }

  /** The handler brings back the backup of this very run. */
  function MoveBack(env: Env, p: Process): Process {
    if p.renames == 0 || !env.backOk || p.d.backups == [] then p
    else Process(p.d.(live := Some(p.d.backups[|p.d.backups| - 1]), backups := p.d.backups[..|p.d.backups| - 1]), p.renames - 1)
  }

  function Swap(env: Env, p: Process): Process {
    if p.d.live.None? then
      if env.at.BeforePromote? then p else MoveTempIn(p)
    else if env.at.BeforeBackup? || p.renames == 0 then p
    else if env.at.BeforePromote? then MoveBack(env, MoveLiveAway(p))
    else MoveTempIn(MoveLiveAway(p))
  }

  /** One rebuild. */
  function Run(env: Env, d: Dirs): Dirs {
    if env.at.BeforeBuild? then d
    else if env.at.DuringBuild? then d.(temp := Some(env.at.partial))
    else
      var built := d.(temp := Some(env.built));
      if env.at.AfterBuild? || env.dryRun || !GuardsPass(env, d) then built
      else Swap(env, Process(built, env.renames)).d
  }

  class Rebuilder {
    var dirs: Dirs
    var renames: nat

    constructor (d: Dirs, renames: nat)
      ensures dirs == d && this.renames == renames
    {
      dirs, this.renames := d, renames;
    }

    method Guards(env: Env) returns (reasons: seq<Reason>)
      ensures reasons == [] <==> GuardsPass(env, dirs)
    {
      reasons := [];
      var liveCount, liveSize := LiveCount(dirs), LiveSize(dirs);
      if env.built.Count() <= 0 { reasons := reasons + [EmptyTemp]; }
      if liveCount != 0 && 4 * env.built.Count() < liveCount && !env.allowShrink { reasons := reasons + [Shrunk]; }
      if liveSize != 0 && env.built.size > 20 * liveSize { reasons := reasons + [Runaway]; }
      if env.total != 0 && 5 * env.failed > env.total && !env.force { reasons := reasons + [TooManyFailures]; }
    }

    method RebuildCollection(env: Env)
      requires renames == env.renames
      modifies this
      ensures dirs == Run(env, old(dirs))
    {
      if env.at.BeforeBuild? { return; }
      if env.at.DuringBuild? { dirs := dirs.(temp := Some(env.at.partial)); return; }
      var reasons := Guards(env);
      dirs := dirs.(temp := Some(env.built));
      if env.at.AfterBuild? || env.dryRun || reasons != [] { return; }
      var moved := false;
      if dirs.live.Some? {
        if env.at.BeforeBackup? || renames == 0 { return; }
        dirs := dirs.(live := None, backups := dirs.backups + [dirs.live.value]);
        renames, moved := renames - 1, true;
      }
      if env.at.BeforePromote? {
        if moved && renames > 0 && env.backOk {
          var last := |dirs.backups| - 1;
          dirs := dirs.(live := Some(dirs.backups[last]), backups := dirs.backups[..last]);
        }
        return;
      }
      if renames > 0 { dirs := dirs.(live := dirs.temp, temp := None); }
    }
  }

  // ------------------------------------------------------------ one run

  /** At every exception point and every kill point the original is live or the
      newest backup, older backups are untouched, and the live directory is the
      original, the fully built store, or (only while it waits in the backup) absent. */
  ghost predicate Preserves(env: Env, d: Dirs, d': Dirs) {
    if d.live.None? then d'.backups == d.backups && (d'.live.None? || d'.live == Some(env.built))
    else
      || (d'.live == d.live && d'.backups == d.backups)
      || (d'.backups == d.backups + [d.live.value] && (d'.live.None? || d'.live == Some(env.built)))
  }

  lemma OriginalNeverLost(env: Env, d: Dirs)
    ensures Preserves(env, d, Run(env, d))
  {
    if d.live.Some? {
      var backups := d.backups + [d.live.value];
      assert backups[..|backups| - 1] == d.backups;
    }
  }

  /** Unless the process is killed or the rename back fails, a live store is followed
      by a live store on return. */
  lemma LiveOnReturn(env: Env, d: Dirs)
    requires d.live.Some? && env.backOk && env.renames >= 2
    ensures var d' := Run(env, d); d'.live == d.live || d'.live == Some(env.built)
  {
    OriginalNeverLost(env, d);
    var backups := d.backups + [d.live.value];
    assert backups[..|backups| - 1] == d.backups;
  }

  /** The rebuilt store goes live exactly when the run got that far and every guard
      passed or was overridden; the original is then the newest backup. */
  lemma SwapIff(env: Env, d: Dirs)
    requires d.live != Some(env.built)
    ensures Run(env, d).live == Some(env.built) <==>
      && (env.at.Nowhere? || env.at.AfterPromote? || (env.at.BeforeBackup? && d.live.None?))
      && !env.dryRun && GuardsPass(env, d) && env.renames >= (if d.live.Some? then 2 else 1)
  {
    if d.live.Some? {
      var backups := d.backups + [d.live.value];
      assert backups[|backups| - 1] == d.live.value;
    }
  }

  /** The guards in numbers: the built store is not empty, holds at least a quarter of the
      live rows unless shrinking is allowed, takes at most twenty times the live size, and
      at most one file in five failed unless forced. */
  lemma GuardsMean(env: Env, d: Dirs)
    ensures var n := |env.built.rows|;
      GuardsPass(env, d) <==>
        && n > 0
        && (d.live.Some? && !env.allowShrink ==> 4 * n >= |d.live.value.rows|)
        && (d.live.Some? && d.live.value.size > 0 ==> env.built.size <= 20 * d.live.value.size)
        && (env.total > 0 && !env.force ==> 5 * env.failed <= env.total)
  {}

  /** A rebuild whose renames all work swaps whole, the built store live and the original
      the newest backup, or leaves everything but the directory it built in as it was. */
  lemma RebuildLeaves(env: Env, d: Dirs)
    requires env.renames >= 2 && env.backOk
    ensures Run(env, d) ==
      if (env.at.Nowhere? || env.at.AfterPromote? || (env.at.BeforeBackup? && d.live.None?)) && !env.dryRun && GuardsPass(env, d) then
        Dirs(Some(env.built), None, d.backups + if d.live.Some? then [d.live.value] else [])
      else
        Dirs(d.live, if env.at.BeforeBuild? then d.temp else Some(if env.at.DuringBuild? then env.at.partial else env.built), d.backups)
  {
    if d.live.Some? {
      var backups := d.backups + [d.live.value];
      assert backups[..|backups| - 1] == d.backups;
    } else {
      assert d.backups + [] == d.backups;
    }
  }

  // ------------------------------------------------------------ any number of runs

  function Runs(envs: seq<Env>, d: Dirs): Dirs
    decreases |envs|
  {
    if envs == [] then d else Runs(envs[1..], Run(envs[0], d))
  }

  ghost predicate Holds(d: Dirs, s: Store) {
    d.live == Some(s) || s in d.backups
  }

  /** No store that was ever live or kept is lost by any later rebuilds, however they
      fail or are killed. */
  lemma {:induction false} NoStoreIsEverLost(envs: seq<Env>, d: Dirs, s: Store)
    requires Holds(d, s)
    ensures Holds(Runs(envs, d), s)
    decreases |envs|
  {
    if envs != [] {
      OriginalNeverLost(envs[0], d);
      NoStoreIsEverLost(envs[1..], Run(envs[0], d), s);
    }
  }

  /** Every store that is live or kept was so at the start, or is the complete result
      of a build that some run let through its guards. */
  lemma {:induction false} EveryStoreIsAccountedFor(envs: seq<Env>, d: Dirs, s: Store)
    requires Holds(Runs(envs, d), s)
    ensures Holds(d, s) || exists k :: 0 <= k < |envs| && envs[k].built == s && !envs[k].dryRun && GuardsPass(envs[k], Runs(envs[..k], d))
    decreases |envs|
  {
    if envs != [] {
      var next := Run(envs[0], d);
      EveryStoreIsAccountedFor(envs[1..], next, s);
      OriginalNeverLost(envs[0], d);
      if Holds(next, s) {
        if !Holds(d, s) { SwapIff(envs[0], d); assert envs[..0] == []; }
      } else {
        var k :| 0 <= k < |envs[1..]| && envs[1..][k].built == s && !envs[1..][k].dryRun && GuardsPass(envs[1..][k], Runs(envs[1..][..k], next));
        assert envs[..k + 1] == [envs[0]] + envs[1..][..k];
        assert envs[..k + 1][1..] == envs[1..][..k];
        assert envs[k + 1] == envs[1..][k];
      }
    }
  }

  /** The shrink and size guards compare with what is live.  A run killed between its
      two renames leaves nothing live, so the next one compares with nothing. */
  lemma KilledSwapDisarmsGuards(killed: Env, next: Env, d: Dirs)
    requires d.live.Some? && killed.at.Nowhere? && !killed.dryRun && killed.renames == 1 && GuardsPass(killed, d)
    requires next.built.Count() > 0 && (next.total == 0 || 5 * next.failed <= next.total) && !next.dryRun && next.at.Nowhere? && next.renames >= 1
    ensures Runs([killed, next], d).live == Some(next.built) && Holds(Runs([killed, next], d), d.live.value)
  {
    var mid := Run(killed, d);
    assert [killed, next][1..] == [next] && [next][1..] == [];
    assert Runs([killed, next], d) == Runs([next], mid) == Run(next, mid);
  }
}
