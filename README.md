# Tower-defence simulation core in Dafny

A verified model of the rules engine of a browser tower-defence game. The
game is written in TypeScript. Enemies walk a fixed cyclic path, and up to 40
may be alive before the game is lost. The player buys elemental towers on 12
slots and upgrades them along a four-level ladder. Towers fire homing
projectiles that leave burn, freeze, poison, shock or slow effects. Fifty
scheduled waves spawn enemies from per-entry timers, with a boss every tenth
round. Four one-shot abilities are available: bomb, time stop, heal and
shield.

The model follows the code's own structure:

| file | module | models |
|---|---|---|
| `types.dfy` | `GameTypes` | the records: enemy, tower, projectile, status effect, wave, game state, shop item |
| `config.dfy` | `GameConfig` | the constant tables: board, tower stats, enemy archetypes, upgrade ladders, the 50-wave schedule, the shop |
| `enemies.dfy` | `Enemies` | `EnemyManager`: spawning, damage with shield mitigation, status effects, the per-tick walk, the dead purge |
| `towers.dfy` | `Towers` | `TowerManager`: upgrades, cooldown, nearest-enemy targeting, projectiles and homing |
| `waves.dfy` | `Waves` | `WaveManager`: spawn timers, boss injection, wave completion, difficulty scaling, progress, preview |
| `effects.dfy` | `Effects` | `EffectManager`: transient visual effects, their expiry and area queries |
| `rules.dfy` | `Rules` | the engine's pure rules: abilities, the shop, the upgrade bill, the element-to-status map, collisions, slot picking, the end-of-tick verdict |
| `engine.dfy` | `Engine` | `GameEngine`: input handlers, rounds, and the per-frame tick |

Each manager is a class. It holds its lists as `seq` fields, and its methods
update them through `modifies`. Every method is specified against a pure
function on values, and the lemmas are proved about those functions. Loops
stay loops: the enemy walk, the tower attack pass, the spawn-timer pass, the
effect tick, the nearest-enemy scan, the slot search, the backward collision
loop and the dead-enemy sweep. Each carries its invariants.

Numbers are exact reals. Distances are compared squared, so no square root
is taken. The following are parameters:

- the wall-clock time `now`
- the random draws (teleport offsets, particle shapes)
- the movement geometry: `step(from, to, d)` is the point reached by moving
  `from` a distance `d` toward `to`.

Each manager has an invariant, `Valid()`, and its methods keep it:

- enemies: every enemy is consistent (positive maximum health, health at
  most maximum, a live enemy has positive health, at most one status effect
  per kind, no healing effect), identifiers strictly increase along the list
  and stay below the counter;
- towers: every tower sits on its element's upgrade ladder, and no
  projectile carries negative damage;
- waves: the spawn timers match the current wave's entries;
- effects: every listed effect is active between ticks.

`Engine.GameEngine.Valid()` is the conjunction of the four.

Enemy identifiers `enemy-<n>` are modelled by their counter `n`. Tower
identifiers are supplied by the caller.

Several behaviours of the code are reproduced as written and stated as
lemmas:

- **Double credit.** A projectile kill pays its reward twice. The hit pays it
  once, and the dead-enemy sweep later in the same tick pays it again
  (`Rules.CollideCredits`, `Engine.GameEngine.Fight`). Enemies killed by
  damage over time are purged before the sweep, so they pay nothing.
- **Upgrade overcharge.** An upgrade is gated by the tower's upgrade cost
  before the upgrade. It is billed the cost the tower holds after the
  upgrade. From level 2 on the bill exceeds the gate, so gold can go negative
  (`Rules.UpgradeOvercharges`, `Rules.GoldGoesNegative`).
- **No occupancy check.** Buying a tower on a slot that already holds one adds
  a second tower there (`Engine.GameEngine.BuyTower`).
- **Unreachable split.** The splitter branch needs a live enemy with health at
  or below zero. Damage marks an enemy dead the moment that happens, so the
  branch never fires on a consistent enemy (`Enemies.SplitNeverFires`).
- **Health is not clamped.** Health can drop below zero.
- **Restart keeps the round flag.** Restarting does not reset the
  round-active flag and does not start a round
  (`Engine.GameEngine.RestartGame`).

## Model

| member | source | states |
|---|---|---|
| GameConfig.BoardShape | src/config/gameConfig.ts:4-39 | 19 path points starting at (0, 400), 12 tower slots, at most 40 live enemies |
| GameConfig.TowerBase | src/config/gameConfig.ts:42-83 | each element's tower starts with the damage, range and cooldown of ladder row 1 and an upgrade cost equal to row 2's cost |
| GameConfig.EnemyStats | src/config/gameConfig.ts:86-103 | every archetype has positive health, speed and reward |
| GameConfig.Ladder | src/config/gameConfig.ts:106-137 | every ladder has four rows and level 1 costs nothing |
| GameConfig.LadderRises | src/config/gameConfig.ts:106-137 | row i is level i+1; each step up raises damage, range and cost and shortens the cooldown; all stats are positive |
| GameConfig.FireLevelTwo | src/config/gameConfig.ts:106-112 | fire level 2 is damage 40, range 140, cooldown 900, cost 30; a new fire tower deals 25 |
| GameConfig.ScheduleWellFormed | src/config/gameConfig.ts:140-200 | every row of the wave schedule is well formed for its round |
| GameConfig.WaveTable | src/config/gameConfig.ts:140-200 | 50 waves; row i is round i+1; rounds 10/20/30/40/50 are boss waves with no entries and the boss type; every other round has entries with positive count and interval |
| GameConfig.ShopPrices | src/config/gameConfig.ts:203-216 | nine items; each tower item costs what its element's tower costs |
| GameConfig.FindItem | src/game/GameEngine.ts:122 | finds an item with that id in the catalogue, or reports that none has it |
| Enemies.NewEnemy | src/game/EnemyManager.ts:8-27 | a fresh enemy has its archetype's stats, full health, no effects, path index 0, is alive and carries the given id |
| Enemies.FindEnemy | src/game/EnemyManager.ts:170 | the first enemy with the id, or none when no enemy has it |
| Enemies.FindKind | src/game/EnemyManager.ts:208 | the first effect of a kind; none exactly when no effect has that kind |
| Enemies.Dealt | src/game/EnemyManager.ts:177-182 | with a shield effect, half the damage gets through; otherwise all of it |
| Enemies.Damage | src/game/EnemyManager.ts:166-192 | a dead enemy is untouched and reports false; otherwise health drops by the dealt amount without clamping, the enemy dies exactly when health is at or below 0, and it reports true exactly on that kill; nothing else changes |
| Enemies.DotAmount | src/game/EnemyManager.ts:96-98 | damage over time for a tick is non-negative for a non-negative rate and tick |
| Enemies.DotPass | src/game/EnemyManager.ts:87-102 | damage over time changes only health and death, and leaves a dead enemy alone |
| Enemies.Survivors | src/game/EnemyManager.ts:88-93 | the effect filter never grows the list |
| Enemies.SurvivorsExact | src/game/EnemyManager.ts:88-101 | an effect survives a tick exactly when it is a listed effect with its duration shortened by dt and some time still left |
| Enemies.Abilities | src/game/EnemyManager.ts:104-144 | a regenerating enemy below maximum health gains exactly its regeneration, capped at maximum health, and one at or above it keeps its health; a teleporter moves by the drawn offset on both axes; a shielded enemy below half health without a shield gains exactly one shield effect, and is otherwise unchanged; id, path index, death flag, speed and reward never change |
| Enemies.SplitChild | src/game/EnemyManager.ts:146-155 | a child is a live basic enemy at the parent's position with half its maximum health (full), 1.5 times its speed and size 15 by 15 |
| Enemies.Move | src/game/EnemyManager.ts:54-85 | the path index advances cyclically by one exactly when the next point is closer than 5, and stays in range; the enemy steps toward that point by speed times dt, slowed by its effects |
| Enemies.TickEnemy | src/game/EnemyManager.ts:44-47 | a tick keeps the enemy's id |
| Enemies.VisitEnemy | src/game/EnemyManager.ts:42-48 | a dead enemy is skipped; a live one is ticked; two split children, numbered from the counter, are spawned exactly when the enemy is live and its tick meets the split condition, and nothing otherwise |
| Enemies.Live | src/game/EnemyManager.ts:33-35 | exactly the enemies not marked dead |
| Enemies.LiveAppend | src/game/EnemyManager.ts:33-35 | the filter keeps order: the live enemies of a concatenation are those of its parts, and one enemy is kept exactly when it is alive |
| Enemies.Upsert | src/game/EnemyManager.ts:207-213 | the new effect is present; it replaces the one of its kind in place or is appended; other effects are untouched; at most one effect per kind is kept |
| Enemies.DamageById | src/game/EnemyManager.ts:164-192 | an unknown id changes nothing and reports false; otherwise the first enemy with that id takes the damage |
| Enemies.ApplyById | src/game/EnemyManager.ts:194-214 | when the first enemy with the id is live, exactly its effects become `Upsert` of the new effect; with no such enemy, or a dead one, the list is unchanged; no other enemy and no other field changes |
| Enemies.WithoutId | src/game/EnemyManager.ts:29-31 | exactly the enemies with another id |
| Enemies.WithoutIdAppend | src/game/EnemyManager.ts:29-31 | removal by id keeps order: it splits over a concatenation, and one enemy is kept exactly when its id differs |
| Enemies.EnemyAt | src/game/EnemyManager.ts:216-227 | a live enemy within the radius, or none when no live enemy is within it |
| Enemies.InRange | src/game/EnemyManager.ts:229-240 | exactly the live enemies within the radius |
| Enemies.InRangeAppend | src/game/EnemyManager.ts:229-240 | the range query keeps order: it splits over a concatenation, and one enemy is kept exactly when it is live and within the radius |
| Enemies.NewEnemySound | src/game/EnemyManager.ts:8-27 | a fresh enemy satisfies the enemy invariant |
| Enemies.DamageSound | src/game/EnemyManager.ts:166-192 | non-negative damage keeps the invariant and never raises health |
| Enemies.DotPassSound | src/game/EnemyManager.ts:87-102 | damage over time keeps the invariant and never raises health |
| Enemies.DotPassOutcome | src/game/EnemyManager.ts:87-102 | damage over time takes exactly the shield-scaled sum of the surviving effects' damage, or kills the enemy when its health does not cover that sum |
| Enemies.DotTotalNonNegative | src/game/EnemyManager.ts:96-98 | the damage over time of non-healing effects is non-negative |
| Enemies.SurvivorsKeepKinds | src/game/EnemyManager.ts:88-101 | the effect filter keeps at most one effect per kind and no healing effect |
| Enemies.TickEffectsSound | src/game/EnemyManager.ts:87-102 | the effect step keeps the invariant and never raises health |
| Enemies.AbilitiesSound | src/game/EnemyManager.ts:104-144 | the ability step keeps the invariant |
| Enemies.TickSound | src/game/EnemyManager.ts:44-47 | a whole tick keeps the invariant for any geometry and any teleport draw |
| Enemies.SplitNeverFires | src/game/EnemyManager.ts:116-121 | the splitter condition never holds after ticking a consistent enemy |
| Enemies.VisitSound | src/game/EnemyManager.ts:42-48 | visiting a consistent enemy spawns nothing and keeps its id and the invariant |
| Enemies.WalkValid | src/game/EnemyManager.ts:42-48 | the walk over a valid list spawns nothing, keeps the counter and keeps the list valid |
| Enemies.TickerKeepsSound | src/game/EnemyManager.ts:44-47 | the game's tick keeps enemies consistent whenever time does not run backwards |
| Enemies.LiveValid | src/game/EnemyManager.ts:51 | dropping the dead keeps the list valid |
| Enemies.LiveUnrewarded | src/game/EnemyManager.ts:51 | after the purge, the total reward of dead enemies is 0 |
| Enemies.AddValid | src/game/EnemyManager.ts:8-27 | appending an enemy numbered by the counter keeps the list valid |
| Enemies.DamageByIdValid | src/game/EnemyManager.ts:164-192 | non-negative damage by id keeps the list valid |
| Enemies.ApplyByIdValid | src/game/EnemyManager.ts:194-214 | applying a non-healing effect keeps the list valid |
| Enemies.WithoutIdValid | src/game/EnemyManager.ts:29-31 | removing an enemy by id keeps the list valid |
| Enemies.SplitChildValid | src/game/EnemyManager.ts:146-155 | a split child numbered by the counter, of a parent with positive maximum health, keeps the list valid |
| Enemies.UpsertReplaces | src/game/EnemyManager.ts:207-213 | effects of one kind replace each other rather than stack |
| Enemies.SpeedFactorBounded | src/game/EnemyManager.ts:68-74 | slowing effects never speed an enemy up |
| Enemies.TotalRewardAppend | src/game/EnemyManager.ts:251-255 | the dead-reward sum of a concatenation is the sum of its parts |
| Enemies.UpdateValid | src/game/EnemyManager.ts:41-52 | on a valid list an update spawns nothing, keeps the counter, leaves no dead enemy and nothing to reward, and keeps the list valid |
| Enemies.EnemyManager.constructor | src/game/EnemyManager.ts:4-6 | no enemies; the counter starts at 1; valid |
| Enemies.EnemyManager.AddEnemy | src/game/EnemyManager.ts:8-27 | appends exactly one fresh enemy numbered by the counter, increments the counter, keeps validity |
| Enemies.EnemyManager.RemoveEnemy | src/game/EnemyManager.ts:29-31 | removes exactly the enemies with the id; keeps validity |
| Enemies.EnemyManager.SplitEnemy | src/game/EnemyManager.ts:146-155 | appends exactly two children numbered by the counter; keeps validity for a parent with positive maximum health |
| Enemies.EnemyManager.AddChild | src/game/EnemyManager.ts:149-153 | appends exactly one split child numbered by the counter and increments the counter; validity is kept for a parent with positive maximum health |
| Enemies.EnemyManager.VisitAt | src/game/EnemyManager.ts:42-48 | the enemy at the index is replaced by its visit, and its children are appended |
| Enemies.EnemyManager.Walk | src/game/EnemyManager.ts:42-48 | every enemy present at the start is visited in order; children are queued after them and are not visited |
| Enemies.EnemyManager.Update | src/game/EnemyManager.ts:41-52 | the walk followed by the purge of the dead; keeps validity for a non-negative dt |
| Enemies.EnemyManager.DamageEnemy | src/game/EnemyManager.ts:164-192 | as `DamageById`; non-negative damage keeps validity |
| Enemies.EnemyManager.ApplyEffect | src/game/EnemyManager.ts:194-214 | as `ApplyById`; a non-healing effect keeps validity |
| Enemies.EnemyManager.Clear | src/game/EnemyManager.ts:242-245 | no enemies; the counter is back to 1; valid |
| Towers.FindTower | src/game/TowerManager.ts:28 | the first tower with the id, or none |
| Towers.TowerAt | src/game/TowerManager.ts:20-25 | the first tower within 20 of the point on both axes, or none |
| Towers.WithoutTower | src/game/TowerManager.ts:12-14 | exactly the towers with another id |
| Towers.WithoutTowerAppend | src/game/TowerManager.ts:12-14 | removal by id keeps order: it splits over a concatenation, and one tower is kept exactly when its id differs |
| Towers.Upgraded | src/game/TowerManager.ts:27-44 | fails exactly at the top of the ladder; otherwise the level rises by one and only damage, range, cooldown and upgrade cost change |
| Towers.BoughtTower | src/game/GameEngine.ts:125-138 | a level-1 tower of the element at the slot, with the price paid, never fired |
| Towers.BoughtTowerOnLadder | src/game/GameEngine.ts:125-138 | a bought tower sits on its ladder, with the level-2 cost as its upgrade cost |
| Towers.UpgradeClimbs | src/game/TowerManager.ts:27-44 | on the ladder, an upgrade succeeds exactly below level 4; it stays on the ladder, is strictly stronger, and costs the price of the level reached |
| Towers.UpgradeCostRises | src/game/TowerManager.ts:36-43 | from level 2 on, an upgrade raises the recorded upgrade cost |
| Towers.LadderDamage | src/config/gameConfig.ts:106-137 | a tower on its ladder deals positive damage |
| Towers.NearestIn | src/game/TowerManager.ts:76-91 | the running minimum is always a live enemy |
| Towers.NearestCorrect | src/game/TowerManager.ts:76-91 | none exactly when all enemies are dead; otherwise a live enemy of minimal distance, the first on ties |
| Towers.Launch | src/game/TowerManager.ts:93-107 | a projectile from the tower to the enemy, with the tower's element and damage, speed 800, progress 0, aimed at the enemy's id |
| Towers.Attack | src/game/TowerManager.ts:56-74 | a tower fires exactly when it has cooled down and the nearest live enemy is in range; it then launches at that enemy and records the time and target; otherwise it is unchanged |
| Towers.AttackFires | src/game/TowerManager.ts:56-74 | a shot implies the cooldown has elapsed, the target is the nearest live enemy and in range, and only the time and target of the tower change |
| Towers.NoTargetNoShot | src/game/TowerManager.ts:63-64 | with no live enemy there is no shot and no change |
| Towers.AttackAll | src/game/TowerManager.ts:46-50 | one result tower per tower, at most one projectile per tower |
| Towers.AttackAllKeepsTowers | src/game/TowerManager.ts:46-50 | the attack pass changes only each tower's last attack time and target, and every projectile targets a live enemy of the list |
| Towers.AttackAllValid | src/game/TowerManager.ts:46-50 | the attack pass keeps every tower on its ladder, and every projectile it fires deals positive damage |
| Towers.Steer | src/game/TowerManager.ts:119-134 | a projectile is re-aimed at its target; it stays put exactly when it is already at the target and otherwise moves its flight distance toward it; nothing else changes |
| Towers.Homing | src/game/TowerManager.ts:109-138 | the projectile update never grows the list |
| Towers.HomingAppend | src/game/TowerManager.ts:109-138 | the projectile update keeps order: it splits over a concatenation, and one projectile survives, re-aimed and moved, exactly when its target resolves to a live enemy |
| Towers.HomingExact | src/game/TowerManager.ts:109-138 | exactly the projectiles whose target resolves to a live enemy survive, each re-aimed and moved |
| Towers.HomingNoTargets | src/game/TowerManager.ts:109-138 | with no live enemy, every projectile is dropped |
| Towers.HomingKeepsDamage | src/game/TowerManager.ts:109-138 | homing never gives a projectile negative damage |
| Towers.RemoveAt | src/game/TowerManager.ts:157-159 | removes exactly one projectile and keeps the others in order |
| Towers.TowerManager.constructor | src/game/TowerManager.ts:4-6 | no towers, no projectiles; valid |
| Towers.TowerManager.AddTower | src/game/TowerManager.ts:8-10 | appends the tower without any occupancy check; adding a tower on its ladder keeps validity |
| Towers.TowerManager.RemoveTower | src/game/TowerManager.ts:12-14 | removes exactly the towers with the id; keeps validity |
| Towers.TowerManager.GetTowerAt | src/game/TowerManager.ts:20-25 | a tower covering the point, or none when no tower covers it |
| Towers.TowerManager.UpgradeTower | src/game/TowerManager.ts:27-44 | succeeds exactly when a tower has the id and is below the top; only the first such tower changes, by `Upgraded`; on failure nothing changes; keeps validity |
| Towers.TowerManager.FindNearestEnemy | src/game/TowerManager.ts:76-91 | the loop's result is a live enemy of minimal distance, the first on ties, or none exactly when all are dead |
| Towers.TowerManager.AttackEnemy | src/game/TowerManager.ts:93-107 | appends exactly the launched projectile |
| Towers.TowerManager.UpdateTowerAttack | src/game/TowerManager.ts:56-74 | the tower at the index becomes its `Attack` result, and the shot, if any, is appended |
| Towers.TowerManager.AttackTowers | src/game/TowerManager.ts:46-50 | every tower attacks in list order; the shots are appended in that order |
| Towers.TowerManager.UpdateProjectiles | src/game/TowerManager.ts:109-138 | the projectiles become their `Homing` image; the towers are unchanged |
| Towers.TowerManager.Update | src/game/TowerManager.ts:46-54 | the attack pass, then homing over the old and new projectiles; keeps validity |
| Towers.TowerManager.RemoveProjectile | src/game/TowerManager.ts:157-159 | removes the projectile at the index; keeps validity |
| Towers.TowerManager.Clear | src/game/TowerManager.ts:161-164 | no towers, no projectiles; valid |
| Waves.NewTimer | src/game/WaveManager.ts:17-25 | a timer copies its entry's kind, count, delay and interval, has spawned nothing and is inactive |
| Waves.TimersFor | src/game/WaveManager.ts:16-34 | one fresh timer per entry, in order |
| Waves.FreshTimersMatch | src/game/WaveManager.ts:16-34 | fresh timers match their entries and have spawned nothing |
| Waves.TimerStep | src/game/WaveManager.ts:49-56 | a timer that spawns counts one more and is stamped now; otherwise it is unchanged |
| Waves.TimersPass | src/game/WaveManager.ts:48-57 | every timer is stepped, in order |
| Waves.SpawnedKinds | src/game/WaveManager.ts:48-57 | at most one spawn per timer |
| Waves.SpawnedKindsAppend | src/game/WaveManager.ts:48-57 | spawns keep timer order: they split over a concatenation, and one timer yields its kind exactly when it spawns |
| Waves.Batch | src/game/WaveManager.ts:67-70 | one new enemy per spawned kind |
| Waves.PassKeepsMatch | src/game/WaveManager.ts:48-57 | a pass keeps the timers matched to their entries, so spawned never exceeds count, and each timer gains at most one |
| Waves.SpawnedPerTimer | src/game/WaveManager.ts:48-57 | a pass spawns exactly one enemy per spawning timer |
| Waves.ExhaustedPassIdle | src/game/WaveManager.ts:48-57 | with every timer exhausted, a pass spawns nothing and changes nothing |
| Waves.Empowered | src/game/WaveManager.ts:77-83 | the boss gets double maximum health at full health, 0.8 speed, triple reward and size 50 by 50; nothing else changes |
| Waves.BossSound | src/game/WaveManager.ts:72-84 | a spawned boss is consistent and carries the counter's id; the boss has twice the archetype's health |
| Waves.SpawnedWithinCounts | src/game/WaveManager.ts:94-101 | the total spawned never exceeds the total scheduled |
| Waves.ProgressBounded | src/game/WaveManager.ts:94-101 | progress lies in [0, 1] |
| Waves.Multiplier | src/game/WaveManager.ts:125-131 | the difficulty multiplier lies between 1 and 2 |
| Waves.MultiplierMonotone | src/game/WaveManager.ts:125-131 | the multiplier never falls as the round rises |
| Waves.Scaled | src/game/WaveManager.ts:115-119 | the count is the floor of count times the multiplier; the interval is the larger of 200 and the interval divided by the multiplier, so it never rises above an interval of at least 200; kind and delay are kept |
| Waves.AdjustWaveDifficulty | src/game/WaveManager.ts:110-123 | every entry is scaled by the round's multiplier, in order; the rest of the wave is kept |
| Waves.AdjustKeepsShape | src/game/WaveManager.ts:110-123 | adjusting never lowers a count and keeps kinds, delays and order |
| Waves.MaxSpanIsMax | src/game/WaveManager.ts:189-197 | the estimated duration is the largest delay plus count times interval, or 0 |
| Waves.TalliesCorrect | src/game/WaveManager.ts:187-197 | the per-kind tallies hold exactly the kinds mentioned, each with its scheduled count |
| Waves.TalliesSumToTotal | src/game/WaveManager.ts:187-197 | the tallies sum to the total count |
| Waves.WaveManager.constructor | src/game/WaveManager.ts:5-8 | no wave, inactive, no timers; valid |
| Waves.WaveManager.StartWave | src/game/WaveManager.ts:10-40 | the wave is current and active with one fresh timer per entry; a boss wave adds its boss at the path start; the timers match the wave and the enemy manager stays valid |
| Waves.WaveManager.SpawnBoss | src/game/WaveManager.ts:72-84 | appends exactly one boss enemy numbered by the counter; the enemy manager stays valid |
| Waves.WaveManager.ActivateTimer | src/game/WaveManager.ts:28-31 | the delayed activation marks the timer active and stamps it now |
| Waves.WaveManager.Update | src/game/WaveManager.ts:42-65 | without an active wave nothing changes; otherwise every timer is stepped, one enemy is added per spawning timer, and the wave stays active exactly while some timer is unexhausted or a live enemy remains; both managers stay valid |
| Waves.WaveManager.SpawnAll | src/game/WaveManager.ts:48-57 | the timer loop steps every timer and appends the spawned enemies in timer order; the enemy manager stays valid |
| Waves.WaveManager.StepTimer | src/game/WaveManager.ts:49-56 | one timer is stepped; if it spawns, exactly one enemy of its kind is added at the path start; the enemy manager stays valid |
| Waves.WaveManager.Reset | src/game/WaveManager.ts:103-107 | no wave, inactive, no timers; valid |
| Waves.WaveManager.GetWavePreview | src/game/WaveManager.ts:171-205 | the total count, per-kind tallies, boss flag and longest span of the current wave; all zero without a wave |
| Effects.Started | src/game/EffectManager.ts:40-53 | a new effect has the given kind, position, duration, radius and damage, progress 0, and is active |
| Effects.NewParticle | src/game/EffectManager.ts:58-72 | a particle lasts 1 to 2 seconds, has radius 2 to 5, deals no damage and starts active |
| Effects.Particles | src/game/EffectManager.ts:56-76 | one particle per draw, in order |
| Effects.ParticlesHarmless | src/game/EffectManager.ts:56-76 | every particle is harmless, fresh and at the given point |
| Effects.Advance | src/game/EffectManager.ts:128-145 | an active effect's progress grows by dt and it stays active exactly while progress is below its duration; an inactive one is untouched |
| Effects.AdvanceAll | src/game/EffectManager.ts:128-145 | every effect is advanced, in order |
| Effects.Active | src/game/EffectManager.ts:261-263 | exactly the active effects |
| Effects.ActiveAppend | src/game/EffectManager.ts:148 | the filter keeps order |
| Effects.ActiveOfActive | src/game/EffectManager.ts:261-263 | on all-active effects, the filter changes nothing |
| Effects.UpdateExact | src/game/EffectManager.ts:127-149 | after a tick, exactly the advanced effects that were active and still short of their duration remain |
| Effects.EffectsAt | src/game/EffectManager.ts:227-238 | exactly the active effects within the radius |
| Effects.EffectsAtAppend | src/game/EffectManager.ts:227-238 | the area query keeps order: it splits over a concatenation, and one effect is kept exactly when it is active and within the radius |
| Effects.ExplosionDamageAppend | src/game/EffectManager.ts:241-249 | the explosion damage of a concatenation is the sum of its parts |
| Effects.NonBlastHarmless | src/game/EffectManager.ts:241-249 | anything but an active explosion in reach, bombs included, adds no damage |
| Effects.NoBlastNoDamage | src/game/EffectManager.ts:241-249 | with no explosion in reach, the damage is 0 |
| Effects.ExplosionDamageNonNegative | src/game/EffectManager.ts:241-249 | non-negative damages sum to a non-negative total |
| Effects.EffectManager.constructor | src/game/EffectManager.ts:4-5 | no effects; valid |
| Effects.EffectManager.CreateBomb | src/game/EffectManager.ts:8-21 | appends exactly one bomb (1000 ms, radius 100, damage 100, active); keeps validity |
| Effects.EffectManager.CreateShield | src/game/EffectManager.ts:24-37 | appends exactly one shield (5000 ms); keeps validity |
| Effects.EffectManager.CreateExplosion | src/game/EffectManager.ts:40-53 | appends exactly one 500 ms explosion at the point; keeps validity |
| Effects.EffectManager.CreateParticles | src/game/EffectManager.ts:56-76 | the loop appends exactly `count` particles; keeps validity |
| Effects.EffectManager.CreateLightning | src/game/EffectManager.ts:79-93 | appends one 200 ms bolt between the two points; keeps validity |
| Effects.EffectManager.CreateFire | src/game/EffectManager.ts:96-109 | appends one 2000 ms fire of radius 30; keeps validity |
| Effects.EffectManager.CreateIce | src/game/EffectManager.ts:112-125 | appends one 1500 ms ice of radius 40; keeps validity |
| Effects.EffectManager.Update | src/game/EffectManager.ts:127-149 | the loop advances every effect in place, then only the active ones remain, in order; the list is valid afterwards, whatever it was before |
| Effects.EffectManager.Clear | src/game/EffectManager.ts:257-259 | no effects; valid |
| Effects.ActiveEffectsAll | src/game/EffectManager.ts:261-263 | between calls, `getActiveEffects` returns the whole list |
| Rules.UseAbility | src/game/GameEngine.ts:205-225 | with no charge nothing changes; otherwise only that counter drops by one, time stop sets 5000 and heal adds 5 lives capped at 20 |
| Rules.UseAbilityBounded | src/game/GameEngine.ts:205-225 | counters never go below zero; lives never exceed 20 nor fall |
| Rules.OneUseEach | src/game/GameEngine.ts:205-225 | from the initial state each ability works once, and a second use does nothing |
| Rules.ShopRow | src/game/GameEngine.ts:90-98 | a click at height y picks the item in 60-pixel row floor((y-60)/60), and none above 60 or below the last row |
| Rules.Purchase | src/game/GameEngine.ts:119-144 | a sale happens exactly when the selected id names a tower item that the gold covers |
| Rules.PurchaseAffordable | src/game/GameEngine.ts:119-144 | a purchase never makes gold negative and is priced as its element's tower |
| Rules.TowerRows | src/game/GameEngine.ts:90-98 | the tower items are the rows above y = 360 |
| Rules.UpgradeBill | src/game/GameEngine.ts:108-116 | the gold taken is the upgrade cost after the upgrade, or nothing when the gate or the upgrade fails |
| Rules.UpgradeOvercharges | src/game/GameEngine.ts:108-116 | level 1 is billed the gate; levels 2 and 3 are billed strictly more, the next level's price |
| Rules.GoldGoesNegative | src/game/GameEngine.ts:108-116 | a level-2 fire upgrade with exactly 30 gold leaves -20 |
| Rules.UpgradeOutcome | src/game/GameEngine.ts:108-116 | below the gate nothing changes; past the gate the tower is upgraded in place and the gold pays `UpgradeBill`; in every case the towers are unchanged or exactly one tower is replaced by its upgrade |
| Rules.UpgradeOutcomeOnLadder | src/game/TowerManager.ts:27-44 | an upgrade keeps every tower on its ladder |
| Rules.StatusFor | src/game/GameEngine.ts:402-417 | fire burns, ice freezes, poison poisons, lightning shocks, physical slows; damage effects carry at most the hit's damage, and slows a multiplier in (0, 1) |
| Rules.StatusKindsDistinct | src/game/GameEngine.ts:402-417 | different elements leave different status kinds |
| Rules.LiveTarget | src/game/GameEngine.ts:325-331 | the projectile's target is found by id and is alive; none when it is missing or dead |
| Rules.Hit | src/game/GameEngine.ts:322-354 | a collision never adds or removes an enemy, and leaves the projectiles before the current one in place |
| Rules.HitSpec | src/game/GameEngine.ts:322-354 | a projectile with a missing or dead target is dropped and nothing else changes; an out-of-reach one stays; a hit damages the target, pays reward and ten times it in score on a kill, applies the element's status to a survivor, drops the projectile, and touches no other enemy |
| Rules.HitReaches | src/game/GameEngine.ts:338-354 | a projectile that reaches its live target leaves the enemies as damage then status by id, drops the projectile, and pays the reward once and ten times it in score exactly when the blow kills |
| Rules.HitCredits | src/game/GameEngine.ts:338-346 | a hit pays in gold exactly the growth of the dead-reward sum, and ten times that in score |
| Rules.HitValid | src/game/GameEngine.ts:322-354 | a collision keeps every enemy consistent, the ids ordered and below the counter, and no projectile with negative damage |
| Rules.CollideFrom | src/game/GameEngine.ts:319-355 | the backward collision loop keeps every enemy in place: it never adds or removes one |
| Rules.CollideCredits | src/game/GameEngine.ts:319-362 | the collision loop pays exactly the rewards of its kills; from a list with no dead enemy, the sweep pays them again, so each kill is paid twice |
| Rules.CollideValid | src/game/GameEngine.ts:319-355 | the whole collision loop keeps the enemy list valid and no projectile with negative damage |
| Rules.SlotNear | src/game/GameEngine.ts:158-169 | the first slot within 20 of the click, or none when no slot is |
| Rules.SlotsApart | src/config/gameConfig.ts:28-33 | any two slots are more than 40 apart along some axis |
| Rules.SlotUnique | src/game/GameEngine.ts:158-169 | no click is within reach of two slots |
| Rules.Verdict | src/game/GameEngine.ts:367-383 | game over exactly at 40 live enemies; otherwise victory exactly on a cleared board past round 50; otherwise the round ends exactly on a cleared board, a spent wave and a running round |
| Engine.GameEngine.constructor | src/game/GameEngine.ts:24-52 | the initial state (round 1, 20 lives, 100 gold, one charge each), empty managers, no selection; the engine invariant holds |
| Engine.BossUnrewarded | src/game/WaveManager.ts:36-39 | a boss wave adds at most one live enemy and nothing to the dead-reward sum |
| Engine.GameEngine.UseSpecialAbility | src/game/GameEngine.ts:205-225 | the state becomes `UseAbility`'s; a bomb or shield with a charge adds its effect; the engine invariant is kept |
| Engine.GameEngine.HandleShopClick | src/game/GameEngine.ts:90-98 | a click on a row selects that item and drops the tower selection; elsewhere nothing changes; the engine invariant is kept |
| Engine.GameEngine.BuyTower | src/game/GameEngine.ts:119-144 | without a sale nothing changes; with one, the gold pays the cost, a level-1 tower is appended on the slot even if occupied, and the item selection is cleared; the engine invariant is kept |
| Engine.GameEngine.Sell | src/game/GameEngine.ts:126-142 | a sale appends exactly one level-1 tower of the item's element on the slot, takes its price from the gold and clears the item selection; nothing else changes; the engine invariant is kept |
| Engine.GameEngine.SelectTower | src/game/GameEngine.ts:146-156 | selects the slot when a tower covers it, else clears the selection; the item selection is always cleared; the engine invariant is kept |
| Engine.GameEngine.FindNearestTowerPosition | src/game/GameEngine.ts:158-169 | the loop returns the first slot within 20 of the click, or none |
| Engine.GameEngine.HandleTowerPositionClick | src/game/GameEngine.ts:100-106 | with an item selected the slot is a purchase, as `Purchase` decides; with none the slot is selected exactly when a tower covers it; the engine invariant is kept |
| Engine.GameEngine.HandleTowerUpgrade | src/game/GameEngine.ts:108-116 | gated by the cost before the upgrade; on success the tower is upgraded and the gold pays `UpgradeBill`; towers and gold end as `UpgradeOutcome` says; nothing else changes; the engine invariant is kept |
| Engine.GameEngine.UpgradeSelected | src/game/GameEngine.ts:188-197 | with no tower under the selected slot nothing changes; otherwise towers and gold end as `UpgradeOutcome` for that tower says; the engine invariant is kept |
| Engine.GameEngine.HandleKeyPress | src/game/GameEngine.ts:171-203 | space toggles pause; 1 to 4 use bomb, time stop, heal, shield as `UseAbility` says, keep the selections, round flag and frame time, and 1 or 4 with a charge adds the bomb blast or shield dome to the effects; u or U upgrades the tower under the selected slot as `UpgradeOutcome` says, and does nothing without one; Escape clears the selections; other keys change nothing; only u or U touches the towers, only 1 and 4 the effects; the engine invariant is kept |
| Engine.GameEngine.HandleClick | src/game/GameEngine.ts:70-106 | after the game ends any click restarts as `RestartGame` does: the initial state, no selection, no towers, projectiles, enemies, wave, timers or effects, and the enemy counter back at 1; a click on the shop column touches neither state nor towers and selects the row's item as `HandleShopClick` does; a click off every slot changes nothing; a click on a slot buys the selected item there when the gold covers it, does nothing when it does not, and with no item selects the slot exactly when a tower covers it; a running game's enemies, wave and effects are untouched; the engine invariant is kept |
| Engine.GameEngine.RestartGame | src/game/GameEngine.ts:227-252 | the initial state, all managers cleared, no selection; the round flag is kept; the engine invariant holds |
| Engine.GameEngine.StartRound | src/game/GameEngine.ts:259-272 | after the game ends nothing changes; otherwise the round is active with a full timer and, up to round 50, that round's wave is current and active with fresh timers for its entries, its boss (if any) is appended numbered by the counter, which moves past it; the engine side ends as `StartRoundOf` says; at most one live enemy is added and nothing is rewarded; the engine invariant is kept |
| Engine.GameEngine.LaunchWave | src/game/GameEngine.ts:266-269 | the wave is current and active with fresh timers for its entries; its boss (if any) is appended and the enemy counter moves past it; the engine side is `Launched`; at most one live enemy and nothing to reward is added, and validity is kept |
| Engine.GameEngine.NextRound | src/game/GameEngine.ts:386-400 | after the game ends nothing changes; otherwise the round counter moves on: past round 50 the game is won and the round stops, else the next round's wave starts with fresh timers, its boss and a full round timer; the engine side ends as `NextRoundOf` says; the enemies on the board stay, at most one live enemy is added, and gold and score are unchanged; the engine invariant is kept |
| Engine.GameEngine.HitAt | src/game/GameEngine.ts:322-354 | one pass of the collision loop is `Hit` |
| Engine.GameEngine.Strike | src/game/GameEngine.ts:338-354 | a projectile that reaches its live target acts as `Hit`, and nothing outside the field changes |
| Engine.GameEngine.Credit | src/game/GameEngine.ts:340-346 | the target takes the damage by id, and the reward is paid once, and ten times in score, exactly when that blow kills |
| Engine.GameEngine.Mark | src/game/GameEngine.ts:348-353 | the element's status is applied by id and the projectile is removed; towers and counter unchanged |
| Engine.GameEngine.Collide | src/game/GameEngine.ts:319-355 | the backward loop over the projectiles is `CollideFrom` |
| Engine.GameEngine.Collisions | src/game/GameEngine.ts:319-355 | the collision loop changes only gold and score in the state, pays exactly the growth of the dead-reward sum in gold and ten times it in score, keeps the enemy count and the towers, and keeps both managers valid |
| Engine.GameEngine.SweepDead | src/game/GameEngine.ts:357-362 | the sweep adds the dead-reward sum to gold and ten times it to score |
| Engine.GameEngine.Conclude | src/game/GameEngine.ts:367-400 | the tick ends as `Verdict` says, and the engine side ends as `ConcludeOf` says: game over, victory, `nextRound`, or nothing; only the round, the end flags and the round timer of the state can change; 40 or more live enemies at the end always mean game over; the engine invariant is kept |
| Engine.GameEngine.Fight | src/game/GameEngine.ts:316-362 | towers, projectiles and enemies end as `Fought` says (the attack, the homing and the backward collision loop); from a purged list, the pass pays twice the rewards of the kills in gold and twenty times in score; the engine invariant is kept |
| Engine.GameEngine.Volley | src/game/GameEngine.ts:316-355 | the attack, the homing and the collision loop leave towers, projectiles and enemies as `Fought` says; only gold and score change in the state, by the growth of the dead-reward sum and ten times it; both managers stay valid |
| Engine.GameEngine.Prepare | src/game/GameEngine.ts:310-314 | a running wave steps its timers and brings its due enemies (`Arrivals`), then every enemy is updated and the dead are dropped, the enemies and the enemy counter ending as `Marched` says; the current wave is kept; nothing dead is left to pay for; the engine invariant is kept |
| Engine.GameEngine.Run | src/game/GameEngine.ts:310-365 | the wave, the enemies, the towers and the effects end as the stages `Arrivals`, `Marched`, `Fought` and the effect update say; only gold and score change in the state, by twice and twenty times the rewards of the towers' kills; the engine invariant is kept |
| Engine.GameEngine.Tick | src/game/GameEngine.ts:310-365 | the game is where `TickOf` from the snapshot leaves it before the verdict, and the verdict `TickOf` names is the one the end of `update` reaches on that board |
| Engine.GameEngine.Advance | src/game/GameEngine.ts:310-400 | the running tick is `Settled` on `TickOf` from the game it starts from: timers stepped and arrivals added, enemies walked and purged, towers fired, projectiles homed and collided, effects advanced, gold and score grown by twice and twenty times the kills' rewards, and the verdict on the resulting live count carried out as `ConcludeOf` says (game over, victory, or `nextRound` with its next wave, or nothing); lives, abilities, pause and time stop are untouched, and without a round change the round timer too; the engine invariant is kept |
| Engine.GameEngine.Update | src/game/GameEngine.ts:292-400 | a time stop only runs down by dt; otherwise lives, abilities, pause and time stop are untouched; an expired round timer ends the round as `NextRoundOf` says, paying nothing; otherwise the round timer of a running round drops by dt (and stays there unless the verdict changes round), and the tick is `Settled` on `TickOf` from the counted-down state, pays as `Advance` does, keeps a finished game finished, and 40 or more live enemies at its end mean game over; a tick with non-negative dt keeps the engine invariant |
| Engine.GameEngine.GameLoop | src/game/GameEngine.ts:280-290 | the frame time is recorded; a paused or ended game does not change; a running game takes the tick of `update` for the time since the previous frame: a time stop runs down by it; otherwise lives, abilities, pause and time stop are untouched, an expired round timer ends the round as `NextRoundOf` says paying nothing, and otherwise the round timer drops by dt and the tick is `Settled` on `TickOf`, paying twice and twenty times the kills' rewards; a forward clock keeps the engine invariant |
| Engine.GameEngine.LaunchRoundWave | src/game/GameEngine.ts:265-269 | up to round 50, that round's wave is current and active with fresh timers, its boss appended and the counter moved past it, the engine side `Launched` on it; past 50 the managers are untouched; at most one live enemy and nothing to reward is added; the engine invariant is kept |
| Engine.GameEngine.Clock | src/game/GameEngine.ts:297-306 | the round expires exactly when the round is running and its time left minus dt is not positive; then the round ends as `NextRoundOf` says on the counted-down state, gold, score, lives, abilities, pause and time stop untouched; otherwise only the round timer of a running round drops by dt, and the managers and selections are untouched; the engine invariant is kept |
| Engine.RoundChange | src/game/GameEngine.ts:367-400 | the end of a tick on any verdict changes only the round, the end flags and the timer; game over exactly on the game-over verdict or an earlier loss; a verdict other than round over changes only that flag; a round-over verdict on an ended game changes nothing, past round 50 wins and stops the round, and otherwise starts the next wave with its fresh timers and boss and a full timer |
| Engine.CreditedTwice | src/game/GameEngine.ts:340-362 | paying the kills' rewards once when each blow kills and once more in the sweep makes twice the rewards in gold and twenty times in score |

## Left out

- Rendering is not modelled: `render`, the renderer, the effect `render*` stubs, the canvas and `console.log`.
- The DOM wiring is not modelled. Event listeners, `getBoundingClientRect` and `requestAnimationFrame`/`cancelAnimationFrame` are left out. The handlers take the click coordinates, the key, and the new tower's id as parameters.
- `start` and `stop` are not modelled. `start` is a `StartRound` followed by a `GameLoop` at time 0.
- Wall-clock time is the parameter `now`. The `setTimeout` activation of a spawn timer is the explicit step `Waves.WaveManager.ActivateTimer`.
- Randomness is a parameter: the teleporter's draw and the particle draws.
- `createSpecialWave` is left out. It picks one of three fixed waves at random and nothing calls it.
- Square roots and vector normalisation are not modelled. Enemy and projectile movement go through the geometry parameter `step`. Distance tests compare squares. Division by a zero distance is therefore not modelled.
- Velocities are left out: enemy velocity, particle velocity, drag and drift. Particle colours, shop item names and effect ids are left out too. None of them feeds a rule.
- Tower ids built from the clock are replaced by a caller-supplied number.
- A projectile's `progress` is never updated by the game and stays 0 in the model.
- `removeProjectile` removes by identity in the game and by index in the model. The two agree because the collision loop runs backwards.
- The unused round parameter of `getWavePreview` is dropped.
- `Engine.GameEngine.HandleClick`: a selected shop item is taken as present whenever one is set. The game tests the string's truthiness, but no shop id is empty.
- Enemies.TickEnemy: its contract states only that the id is kept. The behaviour of its three steps is stated by `Move`, `TickEffects`/`DotPassOutcome` and `Abilities`.
- Floating-point rounding is not modelled. Numbers are exact reals, so damage over time, the difficulty multiplier and the ability timers have no rounding error.
