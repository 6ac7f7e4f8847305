/** Whole rebuilds: a session fills the side store from where the last one left it,
    the guards look at the result, and the swap makes it live.  Sessions and swaps
    may be killed anywhere, and the disk may change between rebuilds. */
module RebuildMirror {
  import opened Common
  import opened Reconcile
  import opened ReconcileTheorems
  import StoreBuild
  import Rebuild

  /** The side store with its checkpoint, and the store directories. */
  datatype State = State(side: StoreBuild.Process, dirs: Rebuild.Dirs)

  /** One rebuild: the disk it sees, which files fail and which of those are set aside
      as unrecoverable, how long the session lives, and how its swap goes. */
  datatype Round = Round(disk: Disk, fails: Source -> Option<nat>, quarantined: Source -> bool, life: nat, size: nat,
                         allowShrink: bool, force: bool, at: Rebuild.Point, backOk: bool, renames: nat)

  ghost function Resumed(st: State, round: Round): StoreBuild.Process {
    st.side.(life := round.life)
  }

  function Outcome(env: Env, round: Round): Env {
    env.(ingestFails := round.fails)
  }

  ghost function Session(env: Env, st: State, round: Round): StoreBuild.Process
    requires Scanned(env, round.disk)
  {
    StoreBuild.Session(Outcome(env, round), round.disk, Resumed(st, round))
  }

  /** Files that failed and count against the swap. */
  ghost function Failed(env: Env, st: State, round: Round): set<Source> {
    set s | s in round.disk.hash && !round.quarantined(s)
      && IngestFailed(Outcome(env, round), StoreBuild.Open(Resumed(st, round)).done, s, round.disk.hash[s])
  }

  /** The swap as it is attempted; a session that died never gets to it. */
  ghost function Attempt(env: Env, st: State, round: Round): Rebuild.Env
    requires Scanned(env, round.disk)
  {
    var q := Session(env, st, round);
    var store := Rebuild.Store(q.rows, round.size);
    var at := if q.life == 0 || round.at.DuringBuild? then Rebuild.DuringBuild(store) else round.at;
    Rebuild.Env(store, |Failed(env, st, round)|, |round.disk.hash|, false, round.allowShrink, round.force, at, round.backOk, round.renames)
  }

  /** One rebuild; once its store is moved away the next one starts from nothing. */
  ghost function Step(env: Env, st: State, round: Round): State
    requires Scanned(env, round.disk)
  {
    if round.at.BeforeBuild? then st
    else
      var dirs := Rebuild.Run(Attempt(env, st, round), st.dirs);
      State(if dirs.temp.None? then StoreBuild.Empty else Session(env, st, round), dirs)
  }

  ghost predicate Proper(env: Env, rounds: seq<Round>) {
    forall k :: 0 <= k < |rounds| ==> Scanned(env, rounds[k].disk)
  }

  ghost function Rounds(env: Env, st: State, rounds: seq<Round>): State
    requires Proper(env, rounds)
    decreases |rounds|
  {
    if rounds == [] then st else Rounds(env, Step(env, st, rounds[0]), rounds[1..])
  }

  /** The rebuild moved its own store into place. */
  ghost predicate SwappedIn(env: Env, st: State, round: Round)
    requires Scanned(env, round.disk)
  {
    !round.at.BeforeBuild? && Rebuild.Run(Attempt(env, st, round), st.dirs).temp.None?
  }

  // ------------------------------------------------------------ one rebuild

  /** A swap makes live exactly what the session built, and only if the session ran to
      its end and every guard passed or was overridden. */
  lemma SwappedInIsBuilt(env: Env, st: State, round: Round)
    requires Scanned(env, round.disk) && SwappedIn(env, st, round)
    ensures var st' := Step(env, st, round); var q := Session(env, st, round);
      && st'.dirs.live.Some? && st'.dirs.live.value.rows == q.rows && st'.side == StoreBuild.Empty
      && q.life > 0 && Rebuild.GuardsPass(Attempt(env, st, round), st.dirs)
  {}

  lemma OutcomeKeepsRows(env: Env, round: Round, p: StoreBuild.Process, q: StoreBuild.Process)
    requires p.rows == q.rows && p.done == q.done
    ensures StoreBuild.Sound(env, p) <==> StoreBuild.Sound(Outcome(env, round), q)
  {
    StoreBuild.SameSound(env, p, q, round.fails);
  }

  lemma StepKeeps(env: Env, st: State, round: Round)
    requires Scanned(env, round.disk) && StoreBuild.Sound(env, st.side)
    ensures StoreBuild.Sound(env, Step(env, st, round).side)
  {
    if !round.at.BeforeBuild? && !SwappedIn(env, st, round) {
      var q := Session(env, st, round);
      OutcomeKeepsRows(env, round, st.side, Resumed(st, round));
      StoreBuild.SessionKeeps(Outcome(env, round), round.disk, Resumed(st, round));
      OutcomeKeepsRows(env, round, q, q);
    }
  }

  lemma {:induction false} RoundsKeep(env: Env, st: State, rounds: seq<Round>)
    requires Proper(env, rounds) && StoreBuild.Sound(env, st.side)
    ensures StoreBuild.Sound(env, Rounds(env, st, rounds).side)
    decreases |rounds|
  {
    if rounds != [] {
      StepKeeps(env, st, rounds[0]);
      RoundsKeep(env, Step(env, st, rounds[0]), rounds[1..]);
    }
  }

  lemma SameMirror(env: Env, round: Round, rows: seq<Row>)
    ensures Mirrors(env, round.disk, rows) <==> Mirrors(Outcome(env, round), round.disk, rows)
  {
    forall s, h ensures Expected(env, s, h) == Expected(Outcome(env, round), s, h) {}
  }

  lemma SessionMirrorsIff(env: Env, st: State, round: Round)
    requires Injective(env) && Scanned(env, round.disk) && StoreBuild.Sound(env, st.side) && Session(env, st, round).life > 0
    ensures Mirrors(env, round.disk, Session(env, st, round).rows) <==>
      StoreBuild.AllCurrent(round.disk, st.side.rows) && StoreBuild.FailuresWereStored(Outcome(env, round), round.disk, Resumed(st, round))
  {
    OutcomeKeepsRows(env, round, st.side, Resumed(st, round));
    StoreBuild.ResumedBuildMirrorsIff(Outcome(env, round), round.disk, Resumed(st, round));
    SameMirror(env, round, Session(env, st, round).rows);
  }

  // ------------------------------------------------------------ any number of rebuilds

  /** After any rebuilds, killed or refused anywhere, over any disks: a store that a
      rebuild makes live mirrors the disk it saw exactly when the side store it resumed
      held nothing out of date and whatever failed this time had been stored before. */
  lemma LiveStoreMirrorsIff(env: Env, dirs: Rebuild.Dirs, rounds: seq<Round>, last: Round)
    requires Injective(env) && Proper(env, rounds) && Scanned(env, last.disk)
    requires SwappedIn(env, Rounds(env, State(StoreBuild.Empty, dirs), rounds), last)
    ensures var st := Rounds(env, State(StoreBuild.Empty, dirs), rounds); var st' := Step(env, st, last);
      st'.dirs.live.Some? && (Mirrors(env, last.disk, st'.dirs.live.value.rows) <==>
        StoreBuild.AllCurrent(last.disk, st.side.rows) && StoreBuild.FailuresWereStored(Outcome(env, last), last.disk, Resumed(st, last)))
  {
    var st := Rounds(env, State(StoreBuild.Empty, dirs), rounds);
    assert StoreBuild.Sound(env, StoreBuild.Empty);
    RoundsKeep(env, State(StoreBuild.Empty, dirs), rounds);
    SwappedInIsBuilt(env, st, last);
    SessionMirrorsIff(env, st, last);
  }

  /** Every file of the disk that fails does so only after its last chunk. */
  ghost predicate FailsLateOnly(env: Env, round: Round) {
    forall s :: s in round.disk.hash && round.fails(s).Some? ==> env.chunks(s, round.disk.hash[s]) <= round.fails(s).value
  }

  lemma NothingStoredBefore(env: Env, st: State, round: Round)
    requires st.side == StoreBuild.Empty
    ensures StoreBuild.FailuresWereStored(Outcome(env, round), round.disk, Resumed(st, round)) <==> FailsLateOnly(env, round)
  {
    var out := Outcome(env, round);
    forall s | s in round.disk.hash && round.fails(s).Some?
      ensures StoreBuild.TailStored(out, [], s, round.disk.hash[s]) <==> env.chunks(s, round.disk.hash[s]) <= round.fails(s).value
    {
      if round.fails(s).value < env.chunks(s, round.disk.hash[s]) { assert !HasId([], out.chunkId(s, round.fails(s).value)); }
    }
  }

  /** So a rebuild that follows a swap mirrors its disk exactly when no file of that
      disk fails part way, however many files the guards let through. */
  lemma RebuildAfterSwapMirrorsIff(env: Env, dirs: Rebuild.Dirs, rounds: seq<Round>, swap: Round, next: Round)
    requires Injective(env) && Proper(env, rounds) && Scanned(env, swap.disk) && Scanned(env, next.disk)
    requires var st := Rounds(env, State(StoreBuild.Empty, dirs), rounds);
      SwappedIn(env, st, swap) && SwappedIn(env, Step(env, st, swap), next)
    ensures var st := Step(env, Rounds(env, State(StoreBuild.Empty, dirs), rounds), swap); var st' := Step(env, st, next);
      st'.dirs.live.Some? && (Mirrors(env, next.disk, st'.dirs.live.value.rows) <==> FailsLateOnly(env, next))
  {
    hide *;
    var before := Rounds(env, State(StoreBuild.Empty, dirs), rounds);
    SwappedInIsBuilt(env, before, swap);
    SwapThenMirrorsIff(env, Step(env, before, swap), next);
  }

  lemma SwapThenMirrorsIff(env: Env, st: State, next: Round)
    requires Injective(env) && Scanned(env, next.disk) && st.side == StoreBuild.Empty && SwappedIn(env, st, next)
    ensures var st' := Step(env, st, next);
      st'.dirs.live.Some? && (Mirrors(env, next.disk, st'.dirs.live.value.rows) <==> FailsLateOnly(env, next))
  {
    assert StoreBuild.Sound(env, st.side) && StoreBuild.AllCurrent(next.disk, st.side.rows);
    hide Step, SwappedIn, Session, Attempt, StoreBuild.Session, StoreBuild.FailuresWereStored, FailsLateOnly, Mirrors, StoreBuild.Sound, StoreBuild.AllCurrent;
    SwappedInIsBuilt(env, st, next);
    SessionMirrorsIff(env, st, next);
    NothingStoredBefore(env, st, next);
  }
}
