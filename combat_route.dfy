/**
  The progression write-back of app/api/combat/route.ts (POST): validate
  the stage, scale the stage's enemy, fight, then update the character's
  experience, level, attributes and stage completions.

  The SQL tables become values: the stage and enemy tables are maps handed
  in, and the character's row and its stage-completion rows are fields of a
  Character object that the method updates.
*/
module CombatRoute {
  import opened Wrappers
  import opened GameLogic

  /** A stage row: which enemy, at which level. */
  datatype Stage = Stage(enemyId: int, enemyLvl: nat)

  /** An enemy template: attributes per enemy level and a fixed base speed. */
  datatype EnemyTemplate = EnemyTemplate(
    id: int, name: string, dexterityPerLvl: nat, intelligencePerLvl: nat, strengthPerLvl: nat, baseSpeed: nat)

  datatype FightError = InvalidStage | StageNotFound | EnemyNotFound

  /** What the route answers on success: the combat result and the written-back level and experience. */
  datatype FightReport = FightReport(combat: CombatResult, newExp: nat, newLevel: nat)

  /** The enemy of a stage: every attribute is its per-level value times the stage's enemy level. */
  function ScaleEnemy(t: EnemyTemplate, enemyLvl: nat): (e: EntityStats)
    ensures e.level == enemyLvl && e.exp == 0
    ensures e.dexterity == t.dexterityPerLvl * enemyLvl
    ensures e.intelligence == t.intelligencePerLvl * enemyLvl
    ensures e.strength == t.strengthPerLvl * enemyLvl
  {
    EntityStats(enemyLvl, 0, t.strengthPerLvl * enemyLvl, t.dexterityPerLvl * enemyLvl, t.intelligencePerLvl * enemyLvl)
  }

  /** A higher enemy level never gives a weaker enemy of the same template. */
  lemma {:induction false} ScaleEnemyMonotone(t: EnemyTemplate, lower: nat, higher: nat)
    requires lower <= higher
    ensures var p, q := Derive(t.name, ScaleEnemy(t, lower), t.baseSpeed), Derive(t.name, ScaleEnemy(t, higher), t.baseSpeed);
      p.maxHp <= q.maxHp && p.maxShield <= q.maxShield && p.damage <= q.damage
      && p.attackSpeed <= q.attackSpeed && p.dodgeChance <= q.dodgeChance
  {
    MulMonotone(t.strengthPerLvl, lower, higher);
    MulMonotone(t.dexterityPerLvl, lower, higher);
    MulMonotone(t.intelligencePerLvl, lower, higher);
    DeriveMonotone(t.name, ScaleEnemy(t, lower), ScaleEnemy(t, higher), t.baseSpeed);
  }

  lemma MulMonotone(k: nat, lower: nat, higher: nat)
    requires lower <= higher
    ensures k * lower <= k * higher
  {
  }

  /** The completion count of a stage; a stage without a row has none. */
  function CompletionCount(completions: map<int, nat>, stage: int): nat
  {
    if stage in completions then completions[stage] else 0
  }

  /** First completion: no completion row for the stage, or a row whose count is 0. */
  predicate IsFirstCompletion(completions: map<int, nat>, stage: int)
    ensures IsFirstCompletion(completions, stage) <==> CompletionCount(completions, stage) == 0
  {
    stage !in completions || completions[stage] == 0
  }

  /** "!stage || stage < 1": a missing stage id, or one below 1, is invalid. */
  predicate ValidStageId(stage: Option<int>)
  {
    stage.Some? && stage.value >= 1
  }

  /**
    One character's row and its stage-completion rows, as the combat route
    reads and writes them. TrainingRoute.Trainee is the same row as the
    training routes see it: level and the three attributes.
  */
  class Character {
    const nickname: string
    var level: nat
    var exp: nat
    var strength: nat
    var dexterity: nat
    var intelligence: nat
    var completedStage: int
    /** The stageCompletions rows of this character: stage id to completion count. */
    var completions: map<int, nat>

    /** A newly registered character: level 1, no experience, 5 in each attribute, no stage cleared. */
    constructor(nickname: string)
      ensures this.nickname == nickname
      ensures level == 1 && exp == 0 && strength == 5 && dexterity == 5 && intelligence == 5
      ensures completedStage == 0 && completions == map[]
    {
      this.nickname := nickname;
      level, exp, strength, dexterity, intelligence := 1, 0, 5, 5, 5;
      completedStage := 0;
      completions := map[];
    }

    function Stats(): EntityStats
      reads this
    {
      EntityStats(level, exp, strength, dexterity, intelligence)
    }

    /**
      POST /api/combat for this character. The tables are read from the
      maps; the fight's dodge rolls come from `rolls`.
    */
    method Fight(stage: Option<int>, stages: map<int, Stage>, enemies: map<int, EnemyTemplate>, rolls: nat -> Roll)
      returns (r: Result<FightReport, FightError>)
      modifies this
      // The level never drops, so a registered character stays at level 1 or above.
      ensures level >= old(level)
      // Rejections, checked in the route's order, change nothing.
      ensures !ValidStageId(stage) ==> r == Err(InvalidStage)
      ensures ValidStageId(stage) && stage.value !in stages ==> r == Err(StageNotFound)
      ensures ValidStageId(stage) && stage.value in stages && stages[stage.value].enemyId !in enemies ==> r == Err(EnemyNotFound)
      ensures r.Err? ==> unchanged(this)
      ensures r.Ok? <==> ValidStageId(stage) && stage.value in stages && stages[stage.value].enemyId in enemies
      // The completed stage only ever grows.
      ensures completedStage >= old(completedStage)
      ensures r.Ok? ==>
        var s := stage.value;
        var t := enemies[stages[s].enemyId];
        var combat := Simulate(old(Stats()), nickname, ScaleEnemy(t, stages[s].enemyLvl), t.name, t.baseSpeed,
                               IsFirstCompletion(old(completions), s), rolls);
        if combat.isWin then
          // A win: experience and levels from LevelUp, +1 to each attribute per level gained,
          // one more completion of the stage, and the highest completed stage raised to it if higher.
          && (exp, level) == LevelUp(old(exp) + combat.expGained, old(level))
          && strength == old(strength) + (level - old(level))
          && dexterity == old(dexterity) + (level - old(level))
          && intelligence == old(intelligence) + (level - old(level))
          && completions == old(completions)[s := CompletionCount(old(completions), s) + 1]
          && completedStage == (if s > old(completedStage) then s else old(completedStage))
          && !IsFirstCompletion(completions, s)
          && exp < ExpToNextLevel(level)
          && r.value == FightReport(combat.(leveledUp := level > old(level), newLevel := level), exp, level)
        else
          // A loss: experience loses the penalty, floored at 0, which keeps nine tenths
          // of it rounded up; nothing else changes.
          && exp == Max0(old(exp) - combat.expLost)
          && exp == old(exp) - old(exp) / 10
          && level == old(level)
          && strength == old(strength) && dexterity == old(dexterity) && intelligence == old(intelligence)
          && completions == old(completions) && completedStage == old(completedStage)
          && r.value == FightReport(combat, exp, level)
    {
      if !ValidStageId(stage) {
        return Err(InvalidStage);
      }
      var s := stage.value;
      if s !in stages {
        return Err(StageNotFound);
      }
      var stageData := stages[s];
      if stageData.enemyId !in enemies {
        return Err(EnemyNotFound);
      }
      var enemyBase := enemies[stageData.enemyId];
      var enemy := ScaleEnemy(enemyBase, stageData.enemyLvl);
      var isFirstCompletion := IsFirstCompletion(completions, s);

      var combatResult := SimulateCombat(Stats(), nickname, enemy, enemyBase.name, enemyBase.baseSpeed,
                                         isFirstCompletion, rolls);
      LossKeepsNinetyPercent(exp);
      var report := WriteBack(s, combatResult);
      r := Ok(report);
    }

    /**
      The write-back after a fight: on a win the exp/level update with
      attribute growth and the stage-completion rows; on a loss the floored
      experience penalty.
    */
    method WriteBack(s: int, combat: CombatResult) returns (report: FightReport)
      modifies this
      // The level never drops, so a registered character stays at level 1 or above.
      ensures level >= old(level)
      ensures completedStage >= old(completedStage)
      ensures combat.isWin ==>
        && (exp, level) == LevelUp(old(exp) + combat.expGained, old(level))
        && strength == old(strength) + (level - old(level))
        && dexterity == old(dexterity) + (level - old(level))
        && intelligence == old(intelligence) + (level - old(level))
        && completions == old(completions)[s := CompletionCount(old(completions), s) + 1]
        && completedStage == (if s > old(completedStage) then s else old(completedStage))
        && report == FightReport(combat.(leveledUp := level > old(level), newLevel := level), exp, level)
      ensures !combat.isWin ==>
        && exp == Max0(old(exp) - combat.expLost)
        && level == old(level)
        && strength == old(strength) && dexterity == old(dexterity) && intelligence == old(intelligence)
        && completions == old(completions) && completedStage == old(completedStage)
        && report == FightReport(combat, exp, level)
    {
      var combatResult := combat;
      var newExp := exp;
      var newLevel := level;
      var newStr := strength;
      var newDex := dexterity;
      var newInt := intelligence;

      if combatResult.isWin {
        var expResultExp, expResultLevel, expResultLeveledUp := ProcessExpGain(exp, level, combatResult.expGained);
        newExp := expResultExp;
        newLevel := expResultLevel;
        combatResult := combatResult.(leveledUp := expResultLeveledUp, newLevel := newLevel);

        if expResultLeveledUp {
          var levelsGained := newLevel - level;
          newStr := strength + levelsGained;
          newDex := dexterity + levelsGained;
          newInt := intelligence + levelsGained;
        }

        completions := completions[s := CompletionCount(completions, s) + 1];
        if s > completedStage {
          completedStage := s;
        }
      } else {
        newExp := Max0(exp - combatResult.expLost);
      }

      exp, level, strength, dexterity, intelligence := newExp, newLevel, newStr, newDex, newInt;
      report := FightReport(combatResult, newExp, newLevel);
    }
  }

  /**
    A loss never drives experience negative and never costs more than a
    tenth: what remains is the old experience minus its tenth, rounded down,
    so at least nine tenths of it and no more than all of it.
  */
  lemma LossKeepsNinetyPercent(exp: nat)
    ensures Max0(exp - (exp as real * 0.1).Floor) == exp - exp / 10
    ensures 9 * exp <= 10 * (exp - exp / 10) <= 10 * exp
  {
    FloorOfTenth(exp);
  }
}
