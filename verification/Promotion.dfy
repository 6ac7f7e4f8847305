/** Promotion of a recovered side store and its rollback, with a kill possible
    between any two writes and a failure of the second rename. */
module Promotion {
  import opened Common

  /** config.json: the default collection and everything else. */
  datatype Config = Config(defaultCollection: Option<string>, rest: string)

  datatype Receipt = Receipt(prior: Option<string>)

  datatype Kb = Kb(live: Option<string>, side: Option<string>, rollback: Option<string>, failed: Option<string>,
                   config: Config, receipt: Option<Receipt>)

  const Promoted: string := "shared-clearworksai"

  datatype Gates = Gates(conservation: bool, gold: bool, review: bool, human: bool, hold: bool)

  datatype Result = Refused | Raised | Done

  /** A process and how many writes it lives to make. */
  datatype Process = Process(kb: Kb, life: nat)

  function Write(p: Process, kb: Kb): Process {
    if p.life == 0 then p else Process(kb, p.life - 1)
  }

  predicate MayPromote(gates: Gates, kb: Kb) {
    && gates.conservation && gates.gold && gates.review && gates.human && gates.hold
    && kb.live.Some? && kb.side.Some? && kb.rollback.None?
  }

  function Promote(gates: Gates, renameOk: bool, kb: Kb, life: nat): (Kb, Result) {
    if !MayPromote(gates, kb) then (kb, Refused)
    else
      var p1 := Write(Process(kb, life), kb.(live := None, rollback := kb.live));
      if !renameOk then (Write(p1, p1.kb.(live := p1.kb.rollback, rollback := None)).kb, Raised)
      else
        var p2 := Write(p1, p1.kb.(live := p1.kb.side, side := None));
        var p3 := Write(p2, p2.kb.(config := kb.config.(defaultCollection := Some(Promoted))));
        (Write(p3, p3.kb.(receipt := Some(Receipt(kb.config.defaultCollection)))).kb, Done)
  }

  function Rollback(kb: Kb, life: nat): (Kb, Result) {
    if kb.rollback.None? then (kb, Refused)
    else if kb.live.Some? && kb.failed.Some? then (kb, Refused)
    else
      var p0 := Process(kb, life);
      var p1 := if kb.live.Some? then Write(p0, kb.(live := None, failed := kb.live)) else p0;
      var p2 := Write(p1, p1.kb.(live := p1.kb.rollback, rollback := None));
      if p2.kb.receipt.Some? && p2.kb.receipt.value.prior.Some? then
        (Write(p2, p2.kb.(config := p2.kb.config.(defaultCollection := p2.kb.receipt.value.prior))).kb, Done)
      else (p2.kb, Done)
  }

  class KnowledgeBase {
    var kb: Kb
    var life: nat

    constructor (kb: Kb, life: nat)
      ensures this.kb == kb && this.life == life
    {
      this.kb, this.life := kb, life;
    }

    method Save(next: Kb)
      modifies this
      ensures Process(kb, life) == old(Write(Process(kb, life), next))
    {
      if life > 0 { kb, life := next, life - 1; }
    }

    method PromoteSideStore(gates: Gates, renameOk: bool) returns (result: Result)
      modifies this
      ensures (kb, result) == old(Promote(gates, renameOk, kb, life))
    {
      if !(gates.conservation && gates.gold && gates.review && gates.human && gates.hold) { return Refused; }
      if kb.live.None? || kb.side.None? { return Refused; }
      if kb.rollback.Some? { return Refused; }
      var prior := kb.config;
      Save(kb.(live := None, rollback := kb.live));
      if !renameOk {
        Save(kb.(live := kb.rollback, rollback := None));
        return Raised;
      }
      Save(kb.(live := kb.side, side := None));
      Save(kb.(config := prior.(defaultCollection := Some(Promoted))));
      Save(kb.(receipt := Some(Receipt(prior.defaultCollection))));
      result := Done;
    }

    method RollbackPromotedStore() returns (result: Result)
      modifies this
      ensures (kb, result) == old(Rollback(kb, life))
    {
      if kb.rollback.None? { return Refused; }
      if kb.live.Some? {
        if kb.failed.Some? { return Refused; }
        Save(kb.(live := None, failed := kb.live));
      }
      Save(kb.(live := kb.rollback, rollback := None));
      if kb.receipt.Some? && kb.receipt.value.prior.Some? {
        Save(kb.(config := kb.config.(defaultCollection := kb.receipt.value.prior)));
      }
      result := Done;
    }
  }

  // ------------------------------------------------------------ guarantees

  /** Wherever promotion stops, both stores still exist: the original is live or kept
      for rollback, the side store is aside or live, and never live before the
      original is kept. */
  lemma PromotionLosesNothing(gates: Gates, renameOk: bool, kb: Kb, life: nat)
    requires MayPromote(gates, kb)
    ensures var kb' := Promote(gates, renameOk, kb, life).0;
      && (kb'.live == kb.live || kb'.rollback == kb.live)
      && (kb'.side == kb.side || kb'.live == kb.side)
      && (kb'.side.None? ==> kb'.rollback == kb.live)
      && (kb'.config == kb.config || kb'.live == kb.side)
  {}

  /** A promotion that was refused, or whose second rename failed, changes nothing. */
  lemma FailedPromotionUndoesItself(gates: Gates, renameOk: bool, kb: Kb, life: nat)
    requires life >= 2 && (!renameOk || !MayPromote(gates, kb))
    ensures Promote(gates, renameOk, kb, life).0 == kb
  {}

  function PriorOf(receipt: Option<Receipt>): Option<string> {
    if receipt.Some? then receipt.value.prior else None
  }

  /** A promotion is refused unless every gate passed, a human approved, the hold is on,
      both stores are there and no rollback store is in the way. */
  lemma PromotionIsRefusedIff(gates: Gates, renameOk: bool, kb: Kb, life: nat)
    ensures Promote(gates, renameOk, kb, life).1 == Refused <==>
      || !gates.conservation || !gates.gold || !gates.review || !gates.human || !gates.hold
      || kb.live == None || kb.side == None || kb.rollback != None
  {}

  /** A promotion that is not killed makes the side store live, keeps the original for
      rollback, names the promoted collection and writes down the one before. */
  lemma FinishedPromotionLeaves(gates: Gates, kb: Kb, life: nat)
    requires life >= 4 && MayPromote(gates, kb)
    ensures Promote(gates, true, kb, life) ==
      (Kb(kb.side, None, kb.live, kb.failed, Config(Some(Promoted), kb.config.rest), Some(Receipt(kb.config.defaultCollection))), Done)
  {}

  /** A rollback that is not killed makes the kept store live, sets the other one aside,
      and restores the collection the receipt names, if any. */
  lemma FinishedRollbackLeaves(kb: Kb, life: nat)
    requires life >= 3 && kb.rollback.Some? && (kb.live.Some? ==> kb.failed.None?)
    ensures var prior := PriorOf(kb.receipt);
      Rollback(kb, life) ==
        (Kb(kb.rollback, kb.side, None, if kb.live.Some? then kb.live else kb.failed,
            Config(if prior.Some? then prior else kb.config.defaultCollection, kb.config.rest), kb.receipt), Done)
  {}

  /** The rollback finds nothing to roll back, or the place of the failed store taken. */
  predicate RollbackRefused(kb: Kb, life: nat) {
    life == 0 || (life >= 2 && kb.failed.Some?)
  }

  /** Rolling back a promotion killed after `life` writes, itself killed after `again`:
      the original store is live exactly when promotion had not begun, or the renames
      that bring it back were made; a store left over from an earlier rollback refuses
      them.  (When both stores are equal no difference shows before the first rename.) */
  lemma RollbackRestoresStoreIff(gates: Gates, kb: Kb, life: nat, again: nat)
    requires MayPromote(gates, kb)
    ensures var mid := Promote(gates, true, kb, life).0; var back := Rollback(mid, again);
      && (back == (mid, Refused) <==> RollbackRefused(kb, life))
      && (back.0.live == kb.live <==>
            || life == 0 || (life == 1 && again >= 1) || (life >= 2 && kb.failed.None? && again >= 2)
            || (life >= 2 && kb.side == kb.live && (kb.failed.Some? || again == 0)))
  {}

  /** The rollback got past its renames, so that it goes on to the configuration. */
  predicate ReachesConfig(kb: Kb, life: nat, again: nat) {
    !RollbackRefused(kb, life) && again > if life == 1 then 1 else 2
  }

  /** When the configuration is as it was before the promotion, wherever both are killed
      and whatever receipt an earlier promotion left: until promotion writes it; and after
      that exactly when the receipt the rollback reads names the collection of then. */
  lemma RollbackRestoresConfigIff(gates: Gates, kb: Kb, life: nat, again: nat)
    requires MayPromote(gates, kb)
    ensures var mid := Promote(gates, true, kb, life).0; var back := Rollback(mid, again).0;
      var older, prior := PriorOf(kb.receipt), kb.config.defaultCollection;
      back.config == kb.config <==>
        if !ReachesConfig(kb, life, again) then life < 3 || prior == Some(Promoted)
        else if life < 3 then older.None? || older == prior
        else if life == 3 then (if older.Some? then older == prior else prior == Some(Promoted))
        else prior.Some?
  {}

  /** With an older receipt, a promotion killed before writing its own is rolled back
      to the older prior instead. */
  lemma StaleReceiptMisleads(gates: Gates, kb: Kb, life: nat, older: string)
    requires MayPromote(gates, kb) && kb.failed.None? && kb.receipt == Some(Receipt(Some(older))) && 1 <= life <= 3
    ensures var mid := Promote(gates, true, kb, life).0; Rollback(mid, 3).0.config.defaultCollection == Some(older)
  {}

  // ------------------------------------------------------------ any number of runs

  datatype Command =
    | PromoteCmd(gates: Gates, renameOk: bool, life: nat)
    | RollbackCmd(life: nat)
    | Recover(side: string)          // a new side store, when there is none

  function Exec(kb: Kb, c: Command): Kb {
    match c
    case PromoteCmd(gates, renameOk, life) => Promote(gates, renameOk, kb, life).0
    case RollbackCmd(life) => Rollback(kb, life).0
    case Recover(side) => if kb.side.None? then kb.(side := Some(side)) else kb
  }

  function Campaign(kb: Kb, cmds: seq<Command>): Kb
    decreases |cmds|
  {
    if cmds == [] then kb else Campaign(Exec(kb, cmds[0]), cmds[1..])
  }

  function One(s: Option<string>): multiset<string> {
    if s.Some? then multiset{s.value} else multiset{}
  }

  /** Every store there is, wherever it is kept. */
  function Stores(kb: Kb): multiset<string> {
    One(kb.live) + One(kb.side) + One(kb.rollback) + One(kb.failed)
  }

  /** The side stores added by a campaign. */
  function Added(kb: Kb, cmds: seq<Command>): multiset<string>
    decreases |cmds|
  {
    if cmds == [] then multiset{}
    else (if cmds[0].Recover? && kb.side.None? then multiset{cmds[0].side} else multiset{}) + Added(Exec(kb, cmds[0]), cmds[1..])
  }

  /** The four directories of `kb`, whatever the configuration and the receipt say. */
  ghost predicate SameDirs(a: Kb, b: Kb) {
    a.live == b.live && a.side == b.side && a.rollback == b.rollback && a.failed == b.failed
  }

  lemma Regroup(a: multiset<string>, b: multiset<string>, c: multiset<string>, d: multiset<string>)
    ensures a + b + multiset{} + d == multiset{} + b + a + d
    ensures multiset{} + b + c + d == b + multiset{} + c + d
    ensures multiset{} + b + c + d == c + b + multiset{} + d
    ensures a + b + c + multiset{} == multiset{} + b + c + a
  {}

  /** Moving a store to an empty place keeps the stores. */
  lemma Moves(kb: Kb)
    ensures kb.rollback.None? ==> Stores(kb.(live := None, rollback := kb.live)) == Stores(kb)
    ensures kb.live.None? ==> Stores(kb.(live := kb.side, side := None)) == Stores(kb)
    ensures kb.live.None? ==> Stores(kb.(live := kb.rollback, rollback := None)) == Stores(kb)
    ensures kb.failed.None? ==> Stores(kb.(live := None, failed := kb.live)) == Stores(kb)
  {
    assert One(None) == multiset{};
    hide One;
    Regroup(One(kb.live), One(kb.side), One(kb.rollback), One(kb.failed));
  }

  lemma PromoteConserves(gates: Gates, renameOk: bool, kb: Kb, life: nat)
    ensures Stores(Promote(gates, renameOk, kb, life).0) == Stores(kb)
  {
    var away := kb.(live := None, rollback := kb.live);
    var now := Promote(gates, renameOk, kb, life).0;
    Moves(kb);
    Moves(away);
    assert now == kb || (MayPromote(gates, kb) && (now == away || SameDirs(now, away.(live := away.side, side := None))
                         || SameDirs(now, away.(live := away.rollback, rollback := None))));
    hide Promote, One;
  }

  lemma RollbackConserves(kb: Kb, life: nat)
    ensures Stores(Rollback(kb, life).0) == Stores(kb)
  {
    var away := if kb.live.Some? then kb.(live := None, failed := kb.live) else kb;
    var now := Rollback(kb, life).0;
    Moves(kb);
    Moves(away);
    assert now == kb || ((kb.live.Some? ==> kb.failed.None?) && (now == away || SameDirs(now, away.(live := away.rollback, rollback := None))));
    hide Rollback, One;
  }

  lemma ExecConserves(kb: Kb, c: Command)
    ensures Stores(Exec(kb, c)) == Stores(kb) + (if c.Recover? && kb.side.None? then multiset{c.side} else multiset{})
  {
    hide Stores, Promote, Rollback;
    match c
    case PromoteCmd(gates, renameOk, life) => PromoteConserves(gates, renameOk, kb, life);
    case RollbackCmd(life) => RollbackConserves(kb, life);
    case Recover(side) => RecoverAdds(kb, side);
  }

  lemma RecoverAdds(kb: Kb, side: string)
    ensures Stores(Exec(kb, Recover(side))) == Stores(kb) + (if kb.side.None? then multiset{side} else multiset{})
  {
    var a, c, d := One(kb.live), One(kb.rollback), One(kb.failed);
    assert One(None) == multiset{} && One(Some(side)) == multiset{side};
    hide One;
    assert a + multiset{side} + c + d == a + multiset{} + c + d + multiset{side};
  }

  /** Over any promotions and rollbacks, failing or killed anywhere, no store is lost,
      overwritten or duplicated. */
  lemma {:induction false} NoStoreIsLost(kb: Kb, cmds: seq<Command>)
    ensures Stores(Campaign(kb, cmds)) == Stores(kb) + Added(kb, cmds)
    decreases |cmds|
  {
    if cmds != [] {
      ExecConserves(kb, cmds[0]);
      NoStoreIsLost(Exec(kb, cmds[0]), cmds[1..]);
    }
  }

  /** And in every crash state there is a live store, or one kept for rollback that the
      next rollback's first write makes live. */
  lemma {:induction false} AlwaysRecoverable(kb: Kb, cmds: seq<Command>, life: nat)
    requires (kb.live.Some? || kb.rollback.Some?) && life >= 1
    ensures var now := Campaign(kb, cmds); now.live.Some? || (now.rollback.Some? && Rollback(now, life).0.live == now.rollback)
    decreases |cmds|
  {
    if cmds != [] { AlwaysRecoverable(Exec(kb, cmds[0]), cmds[1..], life); }
  }

  /** A rollback killed after its last rename: the original is live, the configuration
      still names the promoted collection, and no later rollback ever changes that. */
  lemma {:induction false} KilledRollbackIsStuck(gates: Gates, kb: Kb, life: nat, reruns: seq<nat>)
    requires MayPromote(gates, kb) && kb.failed.None? && life >= 3
    ensures var back := Rollback(Promote(gates, true, kb, life).0, 2).0;
      && back.live == kb.live && back.config == kb.config.(defaultCollection := Some(Promoted))
      && Rollbacks(back, reruns) == back
  {
    RollbackRestoresStoreIff(gates, kb, life, 2);
    NothingToRollBack(Rollback(Promote(gates, true, kb, life).0, 2).0, reruns);
  }

  function Rollbacks(kb: Kb, lives: seq<nat>): Kb
    decreases |lives|
  {
    if lives == [] then kb else Rollbacks(Rollback(kb, lives[0]).0, lives[1..])
  }

  lemma {:induction false} NothingToRollBack(kb: Kb, lives: seq<nat>)
    requires kb.rollback.None?
    ensures Rollbacks(kb, lives) == kb
    decreases |lives|
  {
    if lives != [] { NothingToRollBack(kb, lives[1..]); }
  }
}
