# Idle-RPG game rules, modelled in Dafny

This project models the rule engine of an idle RPG in which one character fights stages, trains offline and levels up:

- **Stat formulas** (`lib/gameLogic.ts`). Hit points are `100 + 10·level + strength`. Shield is `5·intelligence`. Damage is `10 + level + strength`. Attack speed is `base + dexterity`, with a player base of 10. Dodge chance is `min(dexterity/2, 60)` percent. The level threshold is `100·level²`. Stage experience is `50·stage`.
- **Turn-meter combat simulator** (`simulateCombat`). Each tick adds attack speed to both meters. A side acts once its meter reaches 100; the fuller meter acts, and the player wins ties. The defender may dodge. A shield absorbs damage before hit points. The attacker's meter empties. Every attack is logged. The loop stops on a death or after 1000 iterations.
- **Level-up cascade** (`processExpGain`).
- **Combat write-back** (`app/api/combat/route.ts`). The route validates the stage and scales its enemy. On a win it levels the character up, gives +1 to each attribute per level gained, and updates the stage-completion rows. On a loss it applies the experience penalty, floored at 0.
- **Offline training** (`app/api/training/route.ts`). The routes compute accrual, start (overwrite) a session, and claim it.

Files:

- `wrappers.dfy`: Option and Result.
- `game_logic.dfy`: module `GameLogic`. It holds the formulas and the simulator. The simulator is the method `SimulateCombat` over the class `TurnMeterEntity`. That method is proved equal to the functional reference `Simulate`, which is built from `RunTurns`, `Tick` and `Strike`. The file also holds the level-up loop `ProcessExpGain`, proved equal to the function `LevelUp`.
- `combat_route.dfy`: module `CombatRoute`. The class `Character` holds the character row and its stage-completion rows. Its method `Fight` runs the POST handler.
- `training_route.dfy`: module `TrainingRoute`. The class `Trainee` holds the attributes and the at-most-one training session. It has the GET, POST and PUT handlers.

Modelling choices:

- **Dodge chance** is kept in half-percent points: `DodgeChance(dex) = min(dex, 120)`. `Math.random()` becomes an injected stream `rolls: nat -> Roll` of values in `[0, 200)`, read as `floor(random · 200)`. The k-th attack of a fight uses `rolls(k)`. `DodgeRollFaithful` proves that the test `random · 100 < min(dex · 0.5, 60)` is exactly `roll < DodgeChance(dex)`.
- **Rounding.** `Math.floor(x · 0.2)` and `Math.floor(x · 0.1)` are written as `x / 5` and `x / 10`. `FloorOfFifth` and `FloorOfTenth` prove these equal to the real floors.
- **Time.** Times are integer milliseconds, passed in as parameters. Dafny's `/` by a positive divisor rounds down, as `Math.floor` does. So elapsed minutes are modelled exactly even when the clock runs backwards, and no precondition is needed for that case.
- **Side of each action.** The battle state (`Arena`) records next to the log which side each action hit (`targets`). The log properties therefore do not depend on the two names being different.
- **Stalemate.** A fight that reaches the 1000-iteration cap with both sides alive is a **win** for the player in the code, because `isWin = playerEntity.hp > 0`. A stalemate is not a loss, and the model follows the code (`StalemateIsCappedWin`).
- **Level 0.** Registration creates characters at level 1, and no route lowers a level (`Character.Fight` ensures `level >= old(level)`). The level-up loop still accepts any level. At level 0 the threshold is 0, so the loop pays it and climbs to level 1 for free, then levels as from level 1 (`LevelZeroClimbsForFree`).

## Model

| member | source | states |
|---|---|---|
| `GameLogic.Hp` | lib/gameLogic.ts:15-17 | `calculateHP`: maximum hit points `100 + 10·level + strength`; its growth is stated by `HpStrictlyIncreasing` |
| `GameLogic.Shield` | lib/gameLogic.ts:19-21 | `calculateShield`: maximum shield `5·intelligence` |
| `GameLogic.Damage` | lib/gameLogic.ts:23-25 | `calculateDamage`: damage per hit `10 + level + strength` |
| `GameLogic.AttackSpeed` | lib/gameLogic.ts:27-32 | `calculateAttackSpeed`: `base + dexterity`; the player's base of 10 is `PlayerBaseSpeed`, passed by `Derive` |
| `GameLogic.DodgePercent` | lib/gameLogic.ts:34-36 | `calculateDodgeChance` over exact reals, `min(dex·0.5, 60)`; related to the integer chance by `DodgeChance` and `DodgeRollFaithful` |
| `GameLogic.ExpToNextLevel` | lib/gameLogic.ts:38-40 | `calculateExpToNextLevel`: `100·level²`; its bounds are stated by `ThresholdGrows` |
| `GameLogic.StageExp` | lib/gameLogic.ts:42-44 | `calculateStageExp`: `50·stage` |
| `GameLogic.DodgeChance` | lib/gameLogic.ts:34-36 | the half-percent dodge chance is exactly twice `min(dex·0.5, 60)`; it is at most 120 (60%) and equals 60% from dexterity 120 on |
| `GameLogic.DodgeRollFaithful` | lib/gameLogic.ts:153 | for any random value in [0,1), the dodge test of `simulateCombat` holds iff `floor(random·200) < DodgeChance(dex)`, and that roll lies in [0,200) |
| `GameLogic.HpStrictlyIncreasing` | lib/gameLogic.ts:15-17 | one more level or one more strength point strictly raises hit points |
| `GameLogic.ThresholdGrows` | lib/gameLogic.ts:38-40 | from level 1 on, the level threshold is at least 100 and never decreases with the level |
| `GameLogic.Derive` | lib/gameLogic.ts:89-102 | the derived combatant: hp, shield, damage, attack speed from the given base, and dodge chance from the attributes; its monotonicity is stated by `DeriveMonotone` |
| `GameLogic.DeriveMonotone` | lib/gameLogic.ts:89-102 | a combatant with no lower attributes has no lower hp, shield, damage, speed or dodge |
| `GameLogic.FloorOfFifth` | lib/gameLogic.ts:201 | `floor(x·0.2) == x / 5` for every natural x |
| `GameLogic.FloorOfTenth` | lib/gameLogic.ts:204 | `floor(x·0.1) == x / 10` for every natural x |
| `GameLogic.SelectAttacker` | lib/gameLogic.ts:142-147 | nobody acts iff both meters are below 100; the player acts only with a meter of at least 100 and at least the enemy's (ties to the player); the enemy acts only with a meter of at least 100 and strictly above the player's |
| `GameLogic.SelectAttackerDetermined` | lib/gameLogic.ts:142-147 | those three facts single out the attacker completely |
| `GameLogic.Strike` | lib/gameLogic.ts:151-183 | one attack: dodged iff roll < defender's chance; the action carries the right names, the before/after hp and shield of the defender and the attacker's damage; the shield absorbs first, the rest comes off hp; the defender's meter is untouched |
| `GameLogic.Tick` | lib/gameLogic.ts:136-189 | one iteration of the combat loop: advance both meters, pick the attacker, strike with the next roll, empty the attacker's meter; what it does is stated by `TickMeters` |
| `GameLogic.TickMeters` | lib/gameLogic.ts:136-183 | every tick consumes one iteration; a tick with no attacker only advances both meters and logs nothing; on an attack the attacker's meter resets to 0, the defender's keeps its advanced value, the old log is kept and exactly one action is appended, naming the chosen attacker and the other side as defender, with the attacker's damage, dodged iff the next roll is below the defender's chance, recorded against the defender's hp and shield before and after; the hit side is appended to `targets` |
| `GameLogic.RunTurns` | lib/gameLogic.ts:136-190 | the capped loop: ticks while both sides are alive and fewer than 1000 iterations have run; its properties are stated by `RunTurnsStops` and `RunTurnsSound` |
| `GameLogic.RunTurnsStops` | lib/gameLogic.ts:136-190 | the loop ends only on a death or at the cap and never passes the cap; the old log is a prefix of the final one, which grows by at most one action per iteration |
| `GameLogic.Start` | lib/gameLogic.ts:104-134 | the starting arena: both sides at full hp and shield with empty meters, an empty log and no iterations used; that it satisfies the battle invariant is stated by `StartSound` |
| `GameLogic.StartSound` | lib/gameLogic.ts:104-134 | the starting arena (full hp and shield, empty meters, empty log) satisfies the battle invariant |
| `GameLogic.StrikeKeepsSound` | lib/gameLogic.ts:153-183 | appending a correctly recorded attack on a living defender keeps the battle invariant |
| `GameLogic.TickKeepsSound` | lib/gameLogic.ts:136-189 | one loop iteration with both sides alive and under the cap keeps the battle invariant |
| `GameLogic.RunTurnsSound` | lib/gameLogic.ts:133-190 | the loop keeps the invariant, ends within the cap, and ends with both sides alive only at exactly 1000 iterations |
| `GameLogic.Simulate` | lib/gameLogic.ts:192-217 | the result's log is the loop's log; win iff player hp > 0 at exit, `died` iff not a win; a win earns `stageExp(enemy level)` on a first clear, else `floor(0.2·stageExp)`, and loses nothing; a loss earns nothing and loses `floor(0.1·exp)`; `leveledUp` is false and `newLevel` is the player's level; attack speeds are the derived ones |
| `GameLogic.Battle` | lib/gameLogic.ts:84-190 | the fight between the derived player (base speed 10) and the derived enemy (its template's base speed), from full hp and shield and empty meters; what holds of it is stated by `BattleSound` |
| `GameLogic.BattleSound` | lib/gameLogic.ts:132-190 | in every fight: at most 1000 actions; each action names the right attacker and defender and carries the attacker's damage; a dodge deals 0 and leaves hp and shield as they were; a hit leaves `shield = max(0, shield − damage)` and `hp = hp − max(0, damage − shield)`; a defender with dodge chance 0 is never dodged; along the log each side's hp and shield never increase; only the last action can leave its defender at hp ≤ 0 |
| `GameLogic.StalemateIsCappedWin` | lib/gameLogic.ts:136-192 | a fight that ends with both sides alive used all 1000 iterations and is reported as a win |
| `GameLogic.TurnMeterEntity.constructor` | lib/gameLogic.ts:104-130 | a combatant starts with full hp and shield and an empty meter, with the given fixed stats |
| `GameLogic.Attack` | lib/gameLogic.ts:151-183 | the in-place attack changes the defender exactly as `Strike` says and returns its action |
| `GameLogic.SimulateCombat` | lib/gameLogic.ts:84-218 | the in-place loop over two mutable combatants returns exactly `Simulate`, so it has every property proved about it |
| `GameLogic.LevelUp` | lib/gameLogic.ts:220-236 | for any level, the returned exp is below the returned level's threshold; the level never drops; input exp = returned exp + the thresholds of every level passed |
| `GameLogic.LevelUpUnique` | lib/gameLogic.ts:229-233 | any split of the exp that meets LevelUp's contract is LevelUp's result |
| `GameLogic.ExactThresholdLevelsOnce` | lib/gameLogic.ts:229-233 | gaining exactly one threshold from 0 exp gives level + 1 and 0 exp |
| `GameLogic.LevelZeroClimbsForFree` | lib/gameLogic.ts:229-233 | at level 0 the loop levels exactly as from level 1, ending at level 1 or above |
| `GameLogic.ProcessExpGain` | lib/gameLogic.ts:220-236 | the while loop of `processExpGain` computes LevelUp of `currentExp + gained`, and `leveledUp` iff the level rose, for any starting level |
| `CombatRoute.ScaleEnemy` | app/api/combat/route.ts:38-47 | the enemy's level is the stage's enemy level, each attribute is its per-level value times that level, and its exp is 0 |
| `CombatRoute.ScaleEnemyMonotone` | app/api/combat/route.ts:38-47 | a higher enemy level never gives a weaker derived enemy of the same template |
| `CombatRoute.ValidStageId` | app/api/combat/route.ts:16 | the route's first guard: a stage id is valid iff it is present and at least 1; its use is stated by `Character.Fight` |
| `CombatRoute.CompletionCount` | app/api/combat/route.ts:49-54 | the completions of a stage, 0 without a row; related to the first-completion test by `IsFirstCompletion` |
| `CombatRoute.IsFirstCompletion` | app/api/combat/route.ts:49-54 | a first completion is exactly a completion count of 0, where a missing row counts 0 |
| `CombatRoute.LossKeepsNinetyPercent` | app/api/combat/route.ts:101-103 | after a loss, `max(0, exp − floor(0.1·exp))` is `exp − exp / 10`, which keeps at least nine tenths of the experience and never more than all of it; `Character.Fight` uses it for its loss clause |
| `CombatRoute.Character.constructor` | app/api/auth/register/route.ts:27 | a newly registered character is at level 1 with 0 exp, 5 in each attribute, completed stage 0 and no completion rows |
| `CombatRoute.Character.WriteBack` | app/api/combat/route.ts:73-108 | the level never drops; on a win: exp and level come from LevelUp, each attribute rises by the levels gained (none without a level-up), the stage's completion count rises by 1, and `completedStage` becomes the stage only if higher; on a loss: `exp = max(0, exp − expLost)` and nothing else changes |
| `CombatRoute.Character.Fight` | app/api/combat/route.ts:16-108 | a missing or < 1 stage id, an unknown stage and an unknown enemy are rejected in that order and change nothing; a request passing the three checks is always accepted, and then the fight is `Simulate` of the character against the scaled enemy, whose base speed is the template's unchanged, with the first-completion flag from the completion rows, followed by the write-back; `completedStage` and the level never decrease; after a win the stage is no longer a first completion and exp is below the new level's threshold; after a loss exp is `exp − exp / 10` |
| `TrainingRoute.ParseStat` | app/api/training/route.ts:57-59 | exactly "dexterity", "intelligence" and "strength" are accepted, each as its own column |
| `TrainingRoute.ParseStatColumn` | app/api/training/route.ts:57-59 | every stat's column name parses back to that stat |
| `TrainingRoute.MaxAfkMinutes` | app/api/training/route.ts:26 | the cap is at least 10 and at least the level, and is one of the two |
| `TrainingRoute.StatGains` | app/api/training/route.ts:31-32 | the gains are `floor(min(elapsed, cap) / 3)` and never exceed `cap / 3` |
| `TrainingRoute.Accrue` | app/api/training/route.ts:26-32 | elapsed minutes are the floor of the elapsed milliseconds over 60000; capped minutes are `min(elapsed, max(10, level))` and at most the cap; gains are a third of the capped minutes rounded down, at most cap / 3 |
| `TrainingRoute.GainsMonotone` | app/api/training/route.ts:31-32 | gains are non-decreasing in the elapsed minutes |
| `TrainingRoute.GainsConstantPastCap` | app/api/training/route.ts:31-32 | once the elapsed time reaches the cap, the gains are constant at `cap / 3` |
| `TrainingRoute.AccrualMonotoneInTime` | app/api/training/route.ts:30-32 | a session's gains never decrease as the current time advances |
| `TrainingRoute.Trainee.Status` | app/api/training/route.ts:18-40 | GET reports nothing without a session; otherwise the session and its accrual at `now` from its last claim time and the character's level |
| `TrainingRoute.Trainee.StartTraining` | app/api/training/route.ts:57-66 | any stat other than the three is rejected and changes nothing; otherwise the session is overwritten with that stat and `startTime = lastClaimTime = now`, so its accrual is 0 gains; level and attributes are untouched |
| `TrainingRoute.Trainee.Claim` | app/api/training/route.ts:90-116 | with no session: an error that changes nothing; otherwise only the trained stat grows, by the gains if they are positive (at most cap / 3), the other two stats and the level are unchanged, and the session is deleted even with 0 gains |

## Left out

- HTTP, authentication and the database: requests, cookies and JSON responses are not modelled. The "character not found" answers (app/api/combat/route.ts:20-23, app/api/training/route.ts:14-16 and 84-86) are left out because the character is the object the method runs on.
- The inserts into the `combats` and `combatLog` tables (app/api/combat/route.ts:58-71) are left out: they store the result and do not change it. The response's echo of the pre-fight attributes and the enemy attributes (app/api/combat/route.ts:110-125) is left out too.
- `Math.random()` is an injected stream of rolls. Floating-point rounding of the dodge test and of `* 0.2` / `* 0.1` is not modelled. The proofs hold over exact reals.
- The wall clock is a parameter `now` in milliseconds.
- JavaScript value semantics are not modelled. A stage id is `Option<int>`, so non-numeric ids, fractional ids and other falsy values beyond "missing" are not represented. Attributes are natural numbers.
- Concurrent requests on the same character are not modelled. The code has no synchronisation; the database serialises the updates.
- app/api/character/route.ts is not part of this model. Its `maxAfkTime = 10 + level` (line 30) differs from the `max(10, level)` that the training routes use. The model follows the training routes.
- The `id` fields of combatants and their display-only uses are not modelled.
