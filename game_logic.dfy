/**
  The game rules of lib/gameLogic.ts: the stat formulas, the turn-meter
  combat simulator and the level-up loop.

  Numbers are unbounded integers. The one floating-point formula, the dodge
  chance `min(dexterity * 0.5, 60)`, is kept in half-percent points so that it
  stays an integer; `Math.random()` becomes an injected stream of rolls.
*/
module GameLogic {
  import opened Wrappers

  /** Turn-meter value at which a combatant may act. */
  const MeterFull: nat := 100
  /** Hard cap on the iterations of the combat loop. */
  const MaxTurns: nat := 1000
  /** The player's base attack speed; an enemy's comes from its template. */
  const PlayerBaseSpeed: nat := 10
  /** Dodge chance cap, in half-percent points (60%). */
  const MaxDodge: nat := 120

  function Min(a: int, b: int): int { if a < b then a else b }

  function RealMin(a: real, b: real): real { if a < b then a else b }

  /** max(0, x) */
  function Max0(x: int): nat { if x > 0 then x else 0 }

  // ------------------------------------------------------------------
  // Stat formulas
  // ------------------------------------------------------------------

  function Hp(level: nat, strength: nat): nat { 100 + level * 10 + strength }

  function Shield(intelligence: nat): nat { intelligence * 5 }

  function Damage(level: nat, strength: nat): nat { 10 + level + strength }

  function AttackSpeed(dexterity: nat, baseSpeed: nat): nat { baseSpeed + dexterity }

  /** The dodge chance of `calculateDodgeChance` in lib/gameLogic.ts, as a percentage: `min(dexterity * 0.5, 60)`. */
  function DodgePercent(dexterity: nat): real { RealMin(dexterity as real * 0.5, 60.0) }

  /** The dodge chance in half-percent points: twice `calculateDodgeChance`'s percentage, never above 60%. */
  function DodgeChance(dexterity: nat): (r: nat)
    ensures r as real == 2.0 * DodgePercent(dexterity)
    ensures r <= MaxDodge && DodgePercent(dexterity) <= 60.0
    ensures dexterity >= MaxDodge ==> DodgePercent(dexterity) == 60.0
  {
    if dexterity < MaxDodge then dexterity else MaxDodge
  }

  function ExpToNextLevel(level: nat): nat { 100 * level * level }

  function StageExp(stage: nat): nat { 50 * stage }

  /** More strength or level never means fewer hit points; each strictly adds. */
  lemma HpStrictlyIncreasing(level: nat, strength: nat)
    ensures Hp(level + 1, strength) > Hp(level, strength)
    ensures Hp(level, strength + 1) > Hp(level, strength)
  {
  }

  /** The level threshold is at least 100 from level 1 on and grows with the level. */
  lemma {:induction false} ThresholdGrows(level: nat, higher: nat)
    requires 1 <= level <= higher
    ensures 100 <= ExpToNextLevel(level) <= ExpToNextLevel(higher)
  {
    assert level * level <= higher * higher by {
      assert level * level <= level * higher;
      assert level * higher <= higher * higher;
    }
  }

  /**
    A roll is `floor(Math.random() * 200)`: the dodge test of `simulateCombat`
    `random * 100 < dodgePercent` is exactly `roll < DodgeChance(dexterity)`.
  */
  type Roll = r: nat | r < 200

  lemma DodgeRollFaithful(u: real, dexterity: nat)
    requires 0.0 <= u < 1.0
    ensures 0 <= (u * 200.0).Floor < 200
    ensures (u * 100.0 < DodgePercent(dexterity)) <==> ((u * 200.0).Floor < DodgeChance(dexterity))
  {
    var x := u * 200.0;
    var d := DodgeChance(dexterity);
    assert x.Floor as real <= x < x.Floor as real + 1.0;
    assert (u * 100.0 < DodgePercent(dexterity)) <==> x < d as real;
  }

  /** `Math.floor(x * 0.2)` is integer division by 5. */
  lemma FloorOfFifth(x: nat)
    ensures (x as real * 0.2).Floor == x / 5
  {
    var q, m := x / 5, x % 5;
    assert x as real * 0.2 == q as real + m as real * 0.2;
    assert q as real <= x as real * 0.2 < q as real + 1.0;
  }

  /** `Math.floor(x * 0.1)` is integer division by 10. */
  lemma FloorOfTenth(x: nat)
    ensures (x as real * 0.1).Floor == x / 10
  {
    var q, m := x / 10, x % 10;
    assert x as real * 0.1 == q as real + m as real * 0.1;
    assert q as real <= x as real * 0.1 < q as real + 1.0;
  }

  // ------------------------------------------------------------------
  // Combatants and the battle log
  // ------------------------------------------------------------------

  /** The attributes of a character or a scaled enemy. */
  datatype EntityStats = EntityStats(level: nat, exp: nat, strength: nat, dexterity: nat, intelligence: nat)

  /** What a fight never changes about a combatant. */
  datatype Profile = Profile(name: string, maxHp: nat, maxShield: nat, damage: nat, attackSpeed: nat, dodgeChance: nat)

  /** What a fight changes about a combatant. */
  datatype Gauge = Gauge(hp: int, shield: nat, meter: nat)

  function Derive(name: string, s: EntityStats, baseSpeed: nat): Profile
  {
    Profile(name, Hp(s.level, s.strength), Shield(s.intelligence), Damage(s.level, s.strength),
            AttackSpeed(s.dexterity, baseSpeed), DodgeChance(s.dexterity))
  }

  /** Raising any attribute never weakens the derived combatant. */
  lemma DeriveMonotone(name: string, s: EntityStats, t: EntityStats, baseSpeed: nat)
    requires s.level <= t.level && s.strength <= t.strength
    requires s.dexterity <= t.dexterity && s.intelligence <= t.intelligence
    ensures var p, q := Derive(name, s, baseSpeed), Derive(name, t, baseSpeed);
      p.maxHp <= q.maxHp && p.maxShield <= q.maxShield && p.damage <= q.damage
      && p.attackSpeed <= q.attackSpeed && p.dodgeChance <= q.dodgeChance
  {
  }

  datatype CombatAction = CombatAction(
    attacker: string, defender: string, damage: nat, dodged: bool,
    hpBefore: int, hpAfter: int, shieldBefore: nat, shieldAfter: nat, attackerDamage: nat)

  datatype CombatResult = CombatResult(
    isWin: bool, actions: seq<CombatAction>, expGained: nat, leveledUp: bool, newLevel: nat,
    died: bool, expLost: nat, playerAttackSpeed: nat, enemyAttackSpeed: nat)

  /**
    An action records its exchange correctly: a dodge deals nothing, a hit
    deals the attacker's damage, the shield absorbs first and the rest comes
    off the hit points.
  */
  ghost predicate Recorded(a: CombatAction)
  {
    && (a.dodged ==> a.damage == 0 && a.hpAfter == a.hpBefore && a.shieldAfter == a.shieldBefore)
    && (!a.dodged ==> a.damage == a.attackerDamage)
    && a.shieldAfter == Max0(a.shieldBefore - a.damage)
    && a.hpAfter == a.hpBefore - Max0(a.damage - a.shieldBefore)
  }

  datatype Side = Player | Enemy

  function Other(s: Side): Side { if s == Player then Enemy else Player }

  /**
    Who acts on a tick, given both meters after they were advanced: nobody
    until a meter reaches 100, then the fuller meter, the player on a tie.
  */
  function SelectAttacker(playerMeter: nat, enemyMeter: nat): (s: Option<Side>)
    ensures s.None? <==> playerMeter < MeterFull && enemyMeter < MeterFull
    ensures s == Some(Player) ==> playerMeter >= MeterFull && playerMeter >= enemyMeter
    ensures s == Some(Enemy) ==> enemyMeter >= MeterFull && enemyMeter > playerMeter
  {
    if playerMeter >= MeterFull && playerMeter >= enemyMeter then Some(Player)
    else if enemyMeter >= MeterFull then Some(Enemy)
    else None
  }

  /** The three facts about SelectAttacker's result determine it. */
  lemma SelectAttackerDetermined(playerMeter: nat, enemyMeter: nat, s: Option<Side>)
    requires s.None? <==> playerMeter < MeterFull && enemyMeter < MeterFull
    requires s == Some(Player) ==> playerMeter >= MeterFull && playerMeter >= enemyMeter
    requires s == Some(Enemy) ==> enemyMeter >= MeterFull && enemyMeter > playerMeter
    ensures s == SelectAttacker(playerMeter, enemyMeter)
  {
    match s
    case None =>
    case Some(side) =>
      if side == Player {
        assert SelectAttacker(playerMeter, enemyMeter) == Some(Player);
      } else {
        assert SelectAttacker(playerMeter, enemyMeter) == Some(Enemy);
      }
  }

  /**
    One attack on a defender whose gauge is `g`; returns the defender's new
    gauge and the logged action. The defender's meter is untouched.
  */
  function Strike(attacker: Profile, defender: Profile, g: Gauge, roll: Roll): (out: (Gauge, CombatAction))
    ensures out.0.meter == g.meter
    ensures out.1.dodged <==> roll < defender.dodgeChance
    ensures out.1.attacker == attacker.name && out.1.defender == defender.name
    ensures out.1.attackerDamage == attacker.damage
    ensures out.1.hpBefore == g.hp && out.1.hpAfter == out.0.hp
    ensures out.1.shieldBefore == g.shield && out.1.shieldAfter == out.0.shield
    ensures Recorded(out.1)
  {
    var dodged := roll < defender.dodgeChance;
    var damage := if dodged then 0 else attacker.damage;
    var absorbed := if g.shield > 0 then Min(g.shield, damage) else 0;
    var remaining := damage - absorbed;
    var hp := if remaining > 0 then g.hp - remaining else g.hp;
    var after := g.(hp := hp, shield := g.shield - absorbed);
    (after, CombatAction(attacker.name, defender.name, damage, dodged, g.hp, hp, g.shield, after.shield, attacker.damage))
  }

  /**
    The state of a fight: both gauges, the log so far, which side each
    action hit, and the number of loop iterations used.
  */
  datatype Arena = Arena(player: Gauge, enemy: Gauge, log: seq<CombatAction>, targets: seq<Side>, turns: nat)

  function GaugeOf(a: Arena, s: Side): Gauge { if s == Player then a.player else a.enemy }

  function ProfileOf(pp: Profile, ep: Profile, s: Side): Profile { if s == Player then pp else ep }

  function Start(pp: Profile, ep: Profile): Arena
  {
    Arena(Gauge(pp.maxHp, pp.maxShield, 0), Gauge(ep.maxHp, ep.maxShield, 0), [], [], 0)
  }

  /** One iteration of the combat loop. The k-th attack of a fight uses rolls(k). */
  function Tick(pp: Profile, ep: Profile, a: Arena, rolls: nat -> Roll): Arena
  {
    var p := a.player.(meter := a.player.meter + pp.attackSpeed);
    var e := a.enemy.(meter := a.enemy.meter + ep.attackSpeed);
    match SelectAttacker(p.meter, e.meter)
    case None => a.(player := p, enemy := e, turns := a.turns + 1)
    case Some(Player) =>
      var (e', act) := Strike(pp, ep, e, rolls(|a.log|));
      Arena(p.(meter := 0), e', a.log + [act], a.targets + [Enemy], a.turns + 1)
    case Some(Enemy) =>
      var (p', act) := Strike(ep, pp, p, rolls(|a.log|));
      Arena(p', e.(meter := 0), a.log + [act], a.targets + [Player], a.turns + 1)
  }

  /** Runs the loop while both sides are alive and the cap is not reached. */
  function RunTurns(pp: Profile, ep: Profile, a: Arena, rolls: nat -> Roll): Arena
    decreases MaxTurns - a.turns
  {
    if a.player.hp <= 0 || a.enemy.hp <= 0 || a.turns >= MaxTurns then a
    else RunTurns(pp, ep, Tick(pp, ep, a, rolls), rolls)
  }

  /**
    The loop stops only on a death or at the cap and never runs past the cap;
    the log only grows, by at most one action per iteration.
  */
  lemma {:induction false} RunTurnsStops(pp: Profile, ep: Profile, a: Arena, rolls: nat -> Roll)
    ensures var r := RunTurns(pp, ep, a, rolls);
      && (r.player.hp <= 0 || r.enemy.hp <= 0 || r.turns >= MaxTurns)
      && (a.turns <= MaxTurns ==> r.turns <= MaxTurns)
      && a.turns <= r.turns && a.log <= r.log && |r.log| - |a.log| <= r.turns - a.turns
    decreases MaxTurns - a.turns
  {
    if a.player.hp <= 0 || a.enemy.hp <= 0 || a.turns >= MaxTurns {
    } else {
      TickMeters(pp, ep, a, rolls);
      RunTurnsStops(pp, ep, Tick(pp, ep, a, rolls), rolls);
    }
  }

  /**
    Each tick consumes one iteration; the attacker's meter empties, the
    defender's keeps filling. An attack tick keeps the log and appends one
    action of the chosen attacker on the other side, drawn with the next
    roll and recorded against the defender's gauge; an idle tick logs nothing.
  */
  lemma TickMeters(pp: Profile, ep: Profile, a: Arena, rolls: nat -> Roll)
    ensures var b := Tick(pp, ep, a, rolls);
      var who := SelectAttacker(a.player.meter + pp.attackSpeed, a.enemy.meter + ep.attackSpeed);
      && b.turns == a.turns + 1
      && (who.None? ==> b.log == a.log && b.targets == a.targets
                        && b.player == a.player.(meter := a.player.meter + pp.attackSpeed)
                        && b.enemy == a.enemy.(meter := a.enemy.meter + ep.attackSpeed))
      && (who == Some(Player) ==>
            && b.player == a.player.(meter := 0) && b.enemy.meter == a.enemy.meter + ep.attackSpeed
            && |b.log| == |a.log| + 1 && b.log[..|a.log|] == a.log && b.targets == a.targets + [Enemy]
            && b.log[|a.log|].attacker == pp.name && b.log[|a.log|].defender == ep.name
            && b.log[|a.log|].attackerDamage == pp.damage
            && (b.log[|a.log|].dodged <==> rolls(|a.log|) < ep.dodgeChance)
            && b.log[|a.log|].hpBefore == a.enemy.hp && b.log[|a.log|].hpAfter == b.enemy.hp
            && b.log[|a.log|].shieldBefore == a.enemy.shield && b.log[|a.log|].shieldAfter == b.enemy.shield
            && Recorded(b.log[|a.log|]))
      && (who == Some(Enemy) ==>
            && b.enemy == a.enemy.(meter := 0) && b.player.meter == a.player.meter + pp.attackSpeed
            && |b.log| == |a.log| + 1 && b.log[..|a.log|] == a.log && b.targets == a.targets + [Player]
            && b.log[|a.log|].attacker == ep.name && b.log[|a.log|].defender == pp.name
            && b.log[|a.log|].attackerDamage == ep.damage
            && (b.log[|a.log|].dodged <==> rolls(|a.log|) < pp.dodgeChance)
            && b.log[|a.log|].hpBefore == a.player.hp && b.log[|a.log|].hpAfter == b.player.hp
            && b.log[|a.log|].shieldBefore == a.player.shield && b.log[|a.log|].shieldAfter == b.player.shield
            && Recorded(b.log[|a.log|]))
  {
    var p := a.player.(meter := a.player.meter + pp.attackSpeed);
    var e := a.enemy.(meter := a.enemy.meter + ep.attackSpeed);
    match SelectAttacker(p.meter, e.meter)
    case None =>
    case Some(Player) =>
      var out := Strike(pp, ep, e, rolls(|a.log|));
      assert (a.log + [out.1])[..|a.log|] == a.log;
    case Some(Enemy) =>
      var out := Strike(ep, pp, p, rolls(|a.log|));
      assert (a.log + [out.1])[..|a.log|] == a.log;
  }

  /** An action by `att` on `def` as the log must show it. */
  ghost predicate ActionBy(att: Profile, def: Profile, act: CombatAction)
  {
    && act.attacker == att.name && act.defender == def.name
    && act.attackerDamage == att.damage
    && Recorded(act)
    && (act.dodged ==> def.dodgeChance > 0)
    && act.hpBefore <= def.maxHp && act.shieldBefore <= def.maxShield
  }

  /**
    What holds of every arena a fight goes through: the log never outgrows
    the iterations, which never exceed the cap; every action is recorded
    correctly; each side's hit points and shield never increase along the
    log; and only the last action may leave its defender at hp <= 0.
  */
  ghost predicate Sound(pp: Profile, ep: Profile, a: Arena)
  {
    && |a.log| == |a.targets|
    && |a.log| <= a.turns <= MaxTurns
    && a.player.hp <= pp.maxHp && a.player.shield <= pp.maxShield
    && a.enemy.hp <= ep.maxHp && a.enemy.shield <= ep.maxShield
    && (forall i :: 0 <= i < |a.log| ==>
          ActionBy(ProfileOf(pp, ep, Other(a.targets[i])), ProfileOf(pp, ep, a.targets[i]), a.log[i]))
    && (forall i :: 0 <= i < |a.log| ==>
          GaugeOf(a, a.targets[i]).hp <= a.log[i].hpAfter && GaugeOf(a, a.targets[i]).shield <= a.log[i].shieldAfter)
    && (forall i, j :: 0 <= i < j < |a.log| && a.targets[i] == a.targets[j] ==>
          a.log[j].hpBefore <= a.log[i].hpAfter && a.log[j].shieldBefore <= a.log[i].shieldAfter)
    && (forall i :: 0 <= i < |a.log| - 1 ==> a.log[i].hpAfter > 0)
  }

  lemma StartSound(pp: Profile, ep: Profile)
    ensures Sound(pp, ep, Start(pp, ep))
  {
  }

  /** One attack by `s` keeps the arena sound. */
  lemma {:induction false} StrikeKeepsSound(pp: Profile, ep: Profile, a: Arena, s: Side, b: Arena, act: CombatAction)
    requires Sound(pp, ep, a) && a.player.hp > 0 && a.enemy.hp > 0 && a.turns < MaxTurns
    requires ActionBy(ProfileOf(pp, ep, s), ProfileOf(pp, ep, Other(s)), act)
    requires act.hpBefore == GaugeOf(a, Other(s)).hp && act.shieldBefore == GaugeOf(a, Other(s)).shield
    requires act.hpAfter == GaugeOf(b, Other(s)).hp && act.shieldAfter == GaugeOf(b, Other(s)).shield
    requires GaugeOf(b, s).hp == GaugeOf(a, s).hp && GaugeOf(b, s).shield == GaugeOf(a, s).shield
    requires b.log == a.log + [act] && b.targets == a.targets + [Other(s)] && b.turns == a.turns + 1
    ensures Sound(pp, ep, b)
  {
    var n := |a.log|;
    assert Other(Other(s)) == s;
    forall i | 0 <= i < |b.log|
      ensures ActionBy(ProfileOf(pp, ep, Other(b.targets[i])), ProfileOf(pp, ep, b.targets[i]), b.log[i])
      ensures GaugeOf(b, b.targets[i]).hp <= b.log[i].hpAfter && GaugeOf(b, b.targets[i]).shield <= b.log[i].shieldAfter
    {
      if i < n {
        assert b.log[i] == a.log[i] && b.targets[i] == a.targets[i];
      }
    }
    forall i, j | 0 <= i < j < |b.log| && b.targets[i] == b.targets[j]
      ensures b.log[j].hpBefore <= b.log[i].hpAfter && b.log[j].shieldBefore <= b.log[i].shieldAfter
    {
      assert b.log[i] == a.log[i] && b.targets[i] == a.targets[i];
      if j < n {
        assert b.log[j] == a.log[j] && b.targets[j] == a.targets[j];
      }
    }
    forall i | 0 <= i < |b.log| - 1
      ensures b.log[i].hpAfter > 0
    {
      assert b.log[i] == a.log[i];
      assert GaugeOf(a, a.targets[i]).hp > 0;
    }
  }

  lemma {:induction false} TickKeepsSound(pp: Profile, ep: Profile, a: Arena, rolls: nat -> Roll)
    requires Sound(pp, ep, a) && a.player.hp > 0 && a.enemy.hp > 0 && a.turns < MaxTurns
    ensures Sound(pp, ep, Tick(pp, ep, a, rolls))
  {
    var p := a.player.(meter := a.player.meter + pp.attackSpeed);
    var e := a.enemy.(meter := a.enemy.meter + ep.attackSpeed);
    var b := Tick(pp, ep, a, rolls);
    match SelectAttacker(p.meter, e.meter)
    case None =>
      assert b == a.(player := p, enemy := e, turns := a.turns + 1);
      forall i | 0 <= i < |b.log|
        ensures GaugeOf(b, b.targets[i]).hp <= b.log[i].hpAfter && GaugeOf(b, b.targets[i]).shield <= b.log[i].shieldAfter
      {
        assert GaugeOf(a, a.targets[i]).hp <= a.log[i].hpAfter;
      }
    case Some(Player) =>
      var (e', act) := Strike(pp, ep, e, rolls(|a.log|));
      StrikeKeepsSound(pp, ep, a, Player, b, act);
    case Some(Enemy) =>
      var (p', act) := Strike(ep, pp, p, rolls(|a.log|));
      StrikeKeepsSound(pp, ep, a, Enemy, b, act);
  }

  /**
    The loop keeps the arena sound, never runs past the cap, and ends with
    both sides alive only when the cap was reached.
  */
  lemma {:induction false} RunTurnsSound(pp: Profile, ep: Profile, a: Arena, rolls: nat -> Roll)
    requires Sound(pp, ep, a)
    ensures var b := RunTurns(pp, ep, a, rolls);
      && Sound(pp, ep, b)
      && a.turns <= b.turns
      && (b.player.hp > 0 && b.enemy.hp > 0 ==> b.turns == MaxTurns)
    decreases MaxTurns - a.turns
  {
    if a.player.hp <= 0 || a.enemy.hp <= 0 || a.turns >= MaxTurns {
    } else {
      TickKeepsSound(pp, ep, a, rolls);
      RunTurnsSound(pp, ep, Tick(pp, ep, a, rolls), rolls);
    }
  }

  /** The final arena of a fight between a player and an enemy. */
  function Battle(player: EntityStats, nickname: string, enemy: EntityStats, enemyName: string,
                  enemyBaseSpeed: nat, rolls: nat -> Roll): Arena
  {
    var pp := Derive(nickname, player, PlayerBaseSpeed);
    var ep := Derive(enemyName, enemy, enemyBaseSpeed);
    RunTurns(pp, ep, Start(pp, ep), rolls)
  }

  /**
    The outcome of a fight: a win iff the player is alive when the loop ends;
    first clears earn the stage's experience, repeat clears a fifth of it
    rounded down; a loss costs a tenth of the pre-fight experience rounded
    down. Levels are not touched here.
  */
  function Simulate(player: EntityStats, nickname: string, enemy: EntityStats, enemyName: string,
                    enemyBaseSpeed: nat, isFirstCompletion: bool, rolls: nat -> Roll): (r: CombatResult)
    ensures var a := Battle(player, nickname, enemy, enemyName, enemyBaseSpeed, rolls);
      && r.actions == a.log
      && (r.isWin <==> a.player.hp > 0)
      && (r.died <==> !r.isWin)
    ensures r.isWin ==>
      && r.expLost == 0
      && r.expGained == if isFirstCompletion then StageExp(enemy.level)
                        else (StageExp(enemy.level) as real * 0.2).Floor
    ensures !r.isWin ==> r.expGained == 0 && r.expLost == (player.exp as real * 0.1).Floor
    ensures !r.leveledUp && r.newLevel == player.level
    ensures r.playerAttackSpeed == AttackSpeed(player.dexterity, PlayerBaseSpeed)
    ensures r.enemyAttackSpeed == AttackSpeed(enemy.dexterity, enemyBaseSpeed)
  {
    var a := Battle(player, nickname, enemy, enemyName, enemyBaseSpeed, rolls);
    var isWin := a.player.hp > 0;
    var baseExp := StageExp(enemy.level);
    FloorOfFifth(baseExp);
    FloorOfTenth(player.exp);
    CombatResult(
      isWin, a.log,
      if !isWin then 0 else if isFirstCompletion then baseExp else baseExp / 5,
      false, player.level, !isWin,
      if isWin then 0 else player.exp / 10,
      AttackSpeed(player.dexterity, PlayerBaseSpeed), AttackSpeed(enemy.dexterity, enemyBaseSpeed))
  }

  /**
    Properties of every fight: at most 1000 actions (each iteration appends at
    most one), every action recorded correctly and credited to the right
    sides, hit points and shields that never increase, a defender that cannot
    dodge never dodging, and only the last action possibly lethal.
  */
  lemma BattleSound(player: EntityStats, nickname: string, enemy: EntityStats, enemyName: string,
                    enemyBaseSpeed: nat, rolls: nat -> Roll)
    ensures var pp := Derive(nickname, player, PlayerBaseSpeed);
      var ep := Derive(enemyName, enemy, enemyBaseSpeed);
      var a := Battle(player, nickname, enemy, enemyName, enemyBaseSpeed, rolls);
      && Sound(pp, ep, a)
      && |a.log| <= MaxTurns
      && (a.player.hp > 0 && a.enemy.hp > 0 ==> a.turns == MaxTurns)
  {
    var pp := Derive(nickname, player, PlayerBaseSpeed);
    var ep := Derive(enemyName, enemy, enemyBaseSpeed);
    StartSound(pp, ep);
    RunTurnsSound(pp, ep, Start(pp, ep), rolls);
  }

  /**
    A stalemate, both sides alive when the loop stops, only happens at the
    1000-iteration cap, and `simulateCombat` then reports a win for the player.
  */
  lemma StalemateIsCappedWin(player: EntityStats, nickname: string, enemy: EntityStats, enemyName: string,
                             enemyBaseSpeed: nat, isFirstCompletion: bool, rolls: nat -> Roll)
    requires var a := Battle(player, nickname, enemy, enemyName, enemyBaseSpeed, rolls);
      a.player.hp > 0 && a.enemy.hp > 0
    ensures Battle(player, nickname, enemy, enemyName, enemyBaseSpeed, rolls).turns == MaxTurns
    ensures Simulate(player, nickname, enemy, enemyName, enemyBaseSpeed, isFirstCompletion, rolls).isWin
  {
    BattleSound(player, nickname, enemy, enemyName, enemyBaseSpeed, rolls);
  }

  // ------------------------------------------------------------------
  // The simulator, with mutable combatants
  // ------------------------------------------------------------------

  /** A combatant during one fight: fixed stats plus hp, shield and meter, which the loop updates. */
  class TurnMeterEntity {
    const name: string
    const maxHp: nat
    const maxShield: nat
    const damage: nat
    const attackSpeed: nat
    const dodgeChance: nat
    const isPlayer: bool
    var hp: int
    var shield: nat
    var meter: nat

    constructor (p: Profile, isPlayer: bool)
      ensures AsProfile() == p && this.isPlayer == isPlayer
      ensures Current() == Gauge(p.maxHp, p.maxShield, 0)
    {
      name, maxHp, maxShield, damage := p.name, p.maxHp, p.maxShield, p.damage;
      attackSpeed, dodgeChance := p.attackSpeed, p.dodgeChance;
      this.isPlayer := isPlayer;
      hp, shield, meter := p.maxHp, p.maxShield, 0;
    }

    function AsProfile(): Profile
    {
      Profile(name, maxHp, maxShield, damage, attackSpeed, dodgeChance)
    }

    function Current(): Gauge
      reads this
    {
      Gauge(hp, shield, meter)
    }
  }

  /**
    One attack as the loop body performs it: the dodge roll, then the shield
    absorbs what it can and the rest comes off the defender's hit points.
  */
  method Attack(attacker: TurnMeterEntity, defender: TurnMeterEntity, roll: Roll) returns (action: CombatAction)
    requires attacker != defender
    modifies defender
    ensures (defender.Current(), action) == Strike(attacker.AsProfile(), defender.AsProfile(), old(defender.Current()), roll)
  {
    var dodged := roll < defender.dodgeChance;
    var damage := if dodged then 0 else attacker.damage;
    var hpBefore := defender.hp;
    var shieldBefore := defender.shield;

    var remainingDamage := damage;
    if defender.shield > 0 {
      var shieldDamage := Min(defender.shield, remainingDamage);
      defender.shield := defender.shield - shieldDamage;
      remainingDamage := remainingDamage - shieldDamage;
    }
    if remainingDamage > 0 {
      defender.hp := defender.hp - remainingDamage;
    }
    action := CombatAction(attacker.name, defender.name, damage, dodged, hpBefore, defender.hp,
                           shieldBefore, defender.shield, attacker.damage);
  }

  /**
    `simulateCombat` in lib/gameLogic.ts as it runs: two combatants whose meters, hit
    points and shields are updated in place, and a log appended to, inside a
    loop capped at 1000 iterations. It computes exactly Simulate.
  */
  method SimulateCombat(player: EntityStats, nickname: string, enemy: EntityStats, enemyName: string,
                        enemyBaseSpeed: nat, isFirstCompletion: bool, rolls: nat -> Roll)
    returns (r: CombatResult)
    ensures r == Simulate(player, nickname, enemy, enemyName, enemyBaseSpeed, isFirstCompletion, rolls)
  {
    var pp := Derive(nickname, player, PlayerBaseSpeed);
    var ep := Derive(enemyName, enemy, enemyBaseSpeed);
    var playerEntity := new TurnMeterEntity(pp, true);
    var enemyEntity := new TurnMeterEntity(ep, false);
    var actions: seq<CombatAction> := [];
    ghost var targets: seq<Side> := [];
    var turnCount: nat := 0;
    ghost var final := RunTurns(pp, ep, Start(pp, ep), rolls);

    while playerEntity.hp > 0 && enemyEntity.hp > 0 && turnCount < MaxTurns
      invariant turnCount <= MaxTurns
      invariant RunTurns(pp, ep, Arena(playerEntity.Current(), enemyEntity.Current(), actions, targets, turnCount), rolls) == final
      decreases MaxTurns - turnCount
    {
      ghost var before := Arena(playerEntity.Current(), enemyEntity.Current(), actions, targets, turnCount);
      turnCount := turnCount + 1;
      playerEntity.meter := playerEntity.meter + playerEntity.attackSpeed;
      enemyEntity.meter := enemyEntity.meter + enemyEntity.attackSpeed;

      var attacker: TurnMeterEntity? :=
        if playerEntity.meter >= MeterFull && playerEntity.meter >= enemyEntity.meter then playerEntity
        else if enemyEntity.meter >= MeterFull then enemyEntity
        else null;

      if attacker == null {
        assert Arena(playerEntity.Current(), enemyEntity.Current(), actions, targets, turnCount) == Tick(pp, ep, before, rolls);
        continue;
      }

      var defender := if attacker.isPlayer then enemyEntity else playerEntity;
      var action := Attack(attacker, defender, rolls(|actions|));
      actions := actions + [action];
      targets := targets + [if attacker.isPlayer then Enemy else Player];
      attacker.meter := 0;
      assert Arena(playerEntity.Current(), enemyEntity.Current(), actions, targets, turnCount) == Tick(pp, ep, before, rolls);

      if defender.hp <= 0 {
        break;
      }
    }
    assert Arena(playerEntity.Current(), enemyEntity.Current(), actions, targets, turnCount) == final;

    var isWin := playerEntity.hp > 0;
    var expGained := 0;
    var expLost := 0;
    var died := false;
    if isWin {
      var baseExp := StageExp(enemy.level);
      expGained := if isFirstCompletion then baseExp else baseExp / 5;
    } else {
      died := true;
      expLost := player.exp / 10;
    }
    r := CombatResult(isWin, actions, expGained, false, player.level, died, expLost,
                      playerEntity.attackSpeed, enemyEntity.attackSpeed);
  }

  // ------------------------------------------------------------------
  // Levelling
  // ------------------------------------------------------------------

  /** The experience needed to climb from level `from` to level `to`. */
  function ThresholdSum(from: nat, to: nat): nat
    requires from <= to
    decreases (to as int) - (from as int)
  {
    if from == to then 0 else ExpToNextLevel(from) + ThresholdSum(from + 1, to)
  }

  /**
    The level-up cascade as a function: the returned experience is below the
    returned level's threshold, the level never drops, and experience is
    conserved: what went in is what is left plus every threshold paid.
  */
  function LevelUp(exp: nat, level: nat): (r: (nat, nat))
    ensures r.0 < ExpToNextLevel(r.1)
    ensures level <= r.1 && exp == r.0 + ThresholdSum(level, r.1)
    decreases exp, if level == 0 then 1 else 0
  {
    if level == 0 then LevelUp(exp, 1)
    else if exp < ExpToNextLevel(level) then (exp, level)
    else LevelUp(exp - ExpToNextLevel(level), level + 1)
  }

  /** The contract of LevelUp determines its result: no other split of the experience satisfies it. */
  lemma {:induction false} LevelUpUnique(exp: nat, level: nat, rest: nat, reached: nat)
    requires level <= reached
    requires rest < ExpToNextLevel(reached)
    requires exp == rest + ThresholdSum(level, reached)
    ensures LevelUp(exp, level) == (rest, reached)
    decreases reached - level
  {
    if level < reached {
      assert exp >= ExpToNextLevel(level);
      LevelUpUnique(exp - ExpToNextLevel(level), level + 1, rest, reached);
    }
  }

  /** Gaining exactly one threshold from zero experience climbs one level and leaves zero. */
  lemma ExactThresholdLevelsOnce(level: nat)
    ensures LevelUp(ExpToNextLevel(level), level) == (0, level + 1)
  {
    ThresholdGrows(level + 1, level + 1);
    LevelUpUnique(ExpToNextLevel(level), level, 0, level + 1);
  }

  /**
    At level 0 the threshold is 0: the loop pays it, climbs to level 1 for
    free and then levels as from level 1.
  */
  lemma LevelZeroClimbsForFree(exp: nat)
    ensures LevelUp(exp, 0) == LevelUp(exp, 1)
    ensures LevelUp(exp, 0).1 >= 1
  {
  }

  /** `processExpGain` in lib/gameLogic.ts: its while loop, computing LevelUp. */
  method ProcessExpGain(currentExp: nat, currentLevel: nat, expGained: nat)
    returns (exp: nat, level: nat, leveledUp: bool)
    ensures (exp, level) == LevelUp(currentExp + expGained, currentLevel)
    ensures leveledUp <==> level > currentLevel
  {
    exp := currentExp + expGained;
    level := currentLevel;
    leveledUp := false;
    while exp >= ExpToNextLevel(level)
      invariant level >= currentLevel
      invariant LevelUp(exp, level) == LevelUp(currentExp + expGained, currentLevel)
      invariant leveledUp <==> level > currentLevel
      decreases exp, if level == 0 then 1 else 0
    {
      if level >= 1 {
        ThresholdGrows(level, level);
      }
      exp := exp - ExpToNextLevel(level);
      level := level + 1;
      leveledUp := true;
    }
  }
}
