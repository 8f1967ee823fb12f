# Space Invaders (lodis edition): a verified model of the game core

This project models the simulation core of a browser shooter written in JavaScript on p5.js. The model is in Dafny and is proved by the Dafny verifier. It covers these parts of the game:

- **Player and heat.** The player's ship, with its shield timer and its weapon heat limiter (5 heat per shot, a lock at 100, released at 50).
- **Projectile pools.** Pools of lasers and rockets that are reused and grown.
- **Enemies.** An enemy flies in, joins the formation, fires or is blocked by the enemy below it, and dies over eight frames (a boss dies at once).
- **Wave patterns.** The wave pattern table and its ten-wave rotation.
- **Comets and power-ups.** Falling comets and power-ups, and the two managers that spawn, move, collect and remove them.
- **The game orchestrator.** It owns all of the above and handles:
  - wave set-up and the wave bonus;
  - the shared formation movement (flip at a wall, then a 20-unit descent);
  - respawning after a hit;
  - the rocket's "destroy all";
  - weapon dispatch (rocket, heat check, triple shot);
  - the power-up timers.
- **Leaderboard.** The local list is sorted by score, then time, and cut to the top 100. The online list is deduplicated by nick and ranked.
- **Form and screen logic.** The player-data validator and its merge rule, the start menu's text-field editing, and the game-over screen's score grouping, time string, nick truncation, animation and button.

Every `Math.random()` draw is a parameter in [0, 1). The safe zone is 1200 × 600 and its origin on the canvas is a parameter (`Zone`). Positions, times and `dt` are exact `real` numbers. Lives, health, score and wave are `int`. Classes whose fields the game updates in place stay classes with `modifies` and `reads` frames. Lists the game mutates are `seq` fields. Pure table lookups and formatters are functions.

The model follows the code where the prose description of the game differs from it:

- **The capping shot fails.** The shot that brings the heat to 100 clamps it, sets the lock and returns false (js/systems/WeaponHeatSystem.js:20-23). So from a cold weapon, 19 shots succeed and the 20th is refused (`WeaponHeat.NineteenShotsThenOverheat`).
- **Enemy health can go below zero.** "Destroy all" sets a target's health to 0 and then calls `takeDamage`, so the target ends at −1 (js/Game.js:525-526, `Games.Downed`).
- **The ship exists from the start.** The model creates the ship in the game's constructor; the source leaves it `null` until the first `resetGame`. `resetGame` clears the pools and managers before it lays out the formation. The source does these in another order, but they touch disjoint state.

## Model

| member | source | states |
|---|---|---|
| WeaponHeat.Shot | js/systems/WeaponHeatSystem.js:15-27 | an overheated weapon refuses and stays as it is; otherwise heat rises by 5, capped at 100; the lock sets exactly when the heat reaches 100; the shot succeeds iff it was not locked and the new heat stays below 100; 0..100 is kept |
| WeaponHeat.Cool | js/systems/WeaponHeatSystem.js:29-42 | cooling never raises heat for dt ≥ 0 and never takes it below 0; it keeps the 0..100 range; it never sets the lock; a locked weapon stays locked exactly while the heat is above 50 (hysteresis) |
| WeaponHeat.BurstFromCold | js/systems/WeaponHeatSystem.js:15-27 | n ≤ 19 shots from cold give heat 5n with no lock |
| WeaponHeat.NineteenShotsThenOverheat | js/systems/WeaponHeatSystem.js:3-26 | from cold the first 19 shots succeed, the 20th is refused, and it leaves heat 100 with the lock set |
| WeaponHeat.LockoutHolds | js/systems/WeaponHeatSystem.js:39-41 | a locked weapon that is still above 50 after any sequence of non-negative cooling steps is still locked |
| WeaponHeat.CoolAllNotHotter | js/systems/WeaponHeatSystem.js:31-36 | no sequence of non-negative cooling steps raises the heat |
| WeaponHeat.WeaponHeatSystem.constructor | js/systems/WeaponHeatSystem.js:2-9 | a new system is cold: heat 0, not locked |
| WeaponHeat.WeaponHeatSystem.CanFire | js/systems/WeaponHeatSystem.js:11-13 | true exactly when not locked, and false exactly when a shot would be refused and change nothing |
| WeaponHeat.WeaponHeatSystem.AddHeat | js/systems/WeaponHeatSystem.js:15-27 | the new state and the result are those of `Shot` on the old state |
| WeaponHeat.WeaponHeatSystem.Update | js/systems/WeaponHeatSystem.js:29-42 | the new state is `Cool` of the old state |
| WeaponHeat.WeaponHeatSystem.HeatPercentage | js/systems/WeaponHeatSystem.js:44-46 | the fraction p of the maximum with p·100 = heat, in [0, 1] while the heat is in range |
| WeaponHeat.WeaponHeatSystem.Reset | js/systems/WeaponHeatSystem.js:52-55 | back to heat 0, not locked |
| Projectiles.FirstInactive | js/entities/Projectile.js:83 | the index of the first inactive entry (every earlier one is active), or the length when none is inactive |
| Projectiles.FirstInactiveUnique | js/entities/Projectile.js:83 | any index whose predecessors are all active and which is inactive or the end is the one `find` returns |
| Projectiles.Projectile.constructor | js/entities/Projectile.js:5-17 | position, direction and owner as given; inactive, not aimed, direction vector (0, 1) |
| Projectiles.Projectile.Reset | js/entities/Projectile.js:61-70 | position, direction and owner as given; active; aiming always cleared to (0, 1) |
| Projectiles.Projectile.Move | js/entities/Projectile.js:35-44 | a straight laser moves only in y, by 450·direction·dt; an aimed laser moves by 450·dt along its direction vector |
| Projectiles.Projectile.Hit | js/entities/Projectile.js:46-54 | true iff the centred 3 × 12 box strictly overlaps the target's box, which bounds the laser's centre on both axes |
| Projectiles.Projectile.IsOutOfBounds | js/entities/Projectile.js:56-59 | false exactly when y lies within 20 above the zone's top and 20 below its bottom |
| Projectiles.ProjectilePool.constructor | js/entities/Projectile.js:74-77 | `size` distinct fresh projectiles, all inactive and owned by the pool's owner |
| Projectiles.ProjectilePool.Get | js/entities/Projectile.js:79-92 | reuses the first inactive entry with the length unchanged, or appends exactly one fresh one when all are active; the result is active at (x, y) with the given direction, owned by the given owner or else the pool's, not aimed; no other entry changes |
| Projectiles.ProjectilePool.Release | js/entities/Projectile.js:94-96 | only that projectile's active flag changes, to false |
| Projectiles.ProjectilePool.ReleaseAll | js/Game.js:142-143 | every pooled projectile is inactive; only the active flags change |
| Projectiles.Rocket.constructor | js/entities/Projectile.js:101-110 | position and direction as given, inactive, explosion radius 120 |
| Projectiles.Rocket.Reset | js/entities/Projectile.js:112-117 | position and direction as given, active; the explosion radius is a constant and is not touched |
| Projectiles.Rocket.Move | js/entities/Projectile.js:143-145 | y moves by 300·direction·dt |
| Projectiles.Rocket.IsOutOfBounds | js/entities/Projectile.js:147-149 | false exactly when y lies within 50 above the zone's top and 50 below its bottom |
| Projectiles.Rocket.Hit | js/entities/Projectile.js:151-159 | true iff the centred 8 × 20 box strictly overlaps the target's box |
| Projectiles.RocketPool.constructor | js/entities/Projectile.js:174-176 | `size` distinct fresh rockets, all inactive |
| Projectiles.RocketPool.Get | js/entities/Projectile.js:178-188 | the same reuse-first-inactive-or-grow-by-one rule as the laser pool; the result is active at (x, y) with the given direction; no other entry changes |
| Projectiles.RocketPool.Release | js/entities/Projectile.js:190-192 | only that rocket's active flag changes, to false |
| Projectiles.RocketPool.ReleaseAll | js/Game.js:144 | every pooled rocket is inactive; only the active flags change |
| Enemies.StartingHealth | js/entities/Enemy.js:25-31 | at least 1 for wave ≥ 0; a regular enemy has tier + 1 and a boss 5·(tier + 1), with tier = ⌊wave / 10⌋ (stated as the band of waves each value covers) |
| Enemies.HealthAtWave25 | js/entities/Enemy.js:25-31 | wave 25 gives 3 for a regular enemy and 15 for a boss |
| Enemies.HealthStepsEveryTenWaves | js/entities/Enemy.js:25-29 | ten waves later a regular enemy has exactly one more point of health |
| Enemies.RateOrDefault | js/entities/Enemy.js:35 | the row's multiplier when present and non-zero, 1.0 otherwise (JavaScript's `||`) |
| Enemies.FireRate | js/entities/Enemy.js:172-180 | the per-frame fire chance is the base rate (0.003 for a boss, 0.0012 otherwise) times 1 + 0.15·(wave − 1) times the row's multiplier after wave 1; on wave 1 the base is raised by half, giving 0.0045·multiplier for a boss and 0.0018·multiplier otherwise; it is positive for wave ≥ 1 and a positive multiplier |
| Enemies.FlyIn | js/entities/Enemy.js:153-163 | flying continues iff y < target; then y rises by min(300·dt, target − y), so it never passes the target; otherwise y is unchanged and flying stops |
| Enemies.DeathTick | js/entities/Enemy.js:131-136 | the frame advances by one, with the clock at 0, exactly when the accumulated time reaches 0.025; otherwise only the clock runs |
| Enemies.DeathTakesEightFrames | js/entities/Enemy.js:130-142 | with steps of at least 0.025 the n-th tick is frame n, and the animation is finished exactly from the eighth tick on |
| Enemies.Enemy.constructor | js/entities/Enemy.js:4-42 | placed at zoneX + x, 200 + 55·row above the zone, heading for zoneY + y; 80 × 80 for a boss and 50 × 50 otherwise; speed 60; flying, active and idle; health = maxHealth = `StartingHealth`; weapon `aimed` and multiplier 1.0 by default; death clock at zero |
| Enemies.Enemy.CanShoot | js/entities/Enemy.js:195-214 | true iff no other active, non-dying enemy is strictly lower and less than 60 away horizontally |
| Enemies.Enemy.Move | js/entities/Enemy.js:126-193 | an inactive enemy is untouched; a dying one ticks its death clock (dead and inactive at frame 8) and drifts with a ready formation but never flies or fires; a flying one follows `FlyIn` with its death clock unchanged; a landed one waits for the formation, then moves by speed·direction·dt and fires by the drawn chance (a column shot from its bottom centre only when `CanShoot`, taken from the laser pool by its reuse-or-grow rule with every other pooled laser unchanged; a boss's aimed shot is reported); health and speed never change |
| Enemies.Enemy.Die | js/entities/Enemy.js:130-149 | one tick of the death clock (`DeathTick`), dead and inactive exactly once frame 8 is reached, and the drift with a ready formation |
| Enemies.Enemy.Fire | js/entities/Enemy.js:182-192 | fires exactly when the draw is below `FireRate`: a boss an aimed shot, a regular enemy a column shot from its bottom centre exactly when `CanShoot`, taken from the laser pool by its reuse-or-grow rule with every other pooled laser unchanged; without a column shot the pool is untouched |
| Enemies.Enemy.TakeDamage | js/entities/Enemy.js:278-294 | health drops by exactly 1 with no clamp; destroyed iff the new health ≤ 0; a destroyed regular enemy starts dying at frame 0 and stays active; a destroyed boss becomes inactive at once; a surviving enemy's state is unchanged |
| WavePatterns.PatternNameForWave | js/config/wavePatterns.js:112-118 | for wave ≥ 1 the name at position (wave − 1) mod 10 of the rotation; the diamond boss exactly on waves ending in 5 and the fortress exactly on waves ending in 0 |
| WavePatterns.PatternForWave | js/config/wavePatterns.js:112-118 | the rows of the wave's pattern: four to six rows, each with at least one enemy |
| WavePatterns.PatternPeriodic | js/config/wavePatterns.js:112-118 | wave w + 10 has the same pattern as wave w |
| WavePatterns.BossWaves | js/config/wavePatterns.js:98-109 | waves ending in 5 use the diamond boss pattern and waves ending in 0 the fortress; a pattern has a boss row exactly on those waves |
| WavePatterns.RowShapes | js/config/wavePatterns.js:4-95 | every row has at least one enemy; each boss row has exactly one enemy, with triple/1.2 or rapid/2.5 |
| WavePatterns.PatternTotals | js/config/wavePatterns.js:4-95 | the enemy totals are 40, 30, 30, 24, 18, 32 and 51 for basic, vformation, arrow, walls, cross, diamondBoss and fortress |
| WavePatterns.RowsFitSafeZone | js/config/wavePatterns.js:4-95 | every row starts at x ≥ 0 and, with 60 units between columns, ends within the 1200-unit zone |
| Players.Player.constructor | js/entities/Player.js:6-16 | centred 25 left of the zone's middle and 70 above its bottom, shield off with timer 0, a fresh cold weapon |
| Players.Player.ActivateShield | js/entities/Player.js:18-21 | shield on with 5 seconds left |
| Players.Player.UpdateShield | js/entities/Player.js:23-31 | an inactive shield is untouched; an active one counts down by dt and switches off with timer exactly 0 once the count is ≤ 0 |
| Players.Player.Move | js/entities/Player.js:47-62 | the shield and the weapon update first; with the left key the ship moves 300·dt left while it is right of the zone's left side, then with the right key 300·dt right while it is left of its right limit, and the result is clamped to [zoneX, zoneX + 1150]; for dt ≥ 0 left alone never moves it right and right alone never left; the shield runs down by dt and switches off at zero |
| Players.Player.CanFire | js/entities/Player.js:64-66 | true iff the weapon is not locked |
| Players.Player.Fire | js/entities/Player.js:68-70 | exactly one `Shot` on the weapon |
| Players.Player.IsInvulnerable | js/entities/Player.js:72-74 | shield on or god mode |
| Comets.ConfigFor | js/entities/Comet.js:15-21 | small 30 × 45, 1 hp, speed 220, 10 points; large 50 × 75, 3 hp, speed 180, 30 points; any other name is medium, 40 × 60, 2 hp, speed 190, 20 points |
| Comets.Comet.constructor | js/entities/Comet.js:5-28 | at (x, y), active, with every property from the size table and maxHp = hp |
| Comets.Comet.Move | js/entities/Comet.js:59-68 | an inactive comet stays where it is; an active one falls by speed·dt and deactivates once more than 50 below the zone |
| Comets.Comet.Hit | js/entities/Comet.js:70-80 | true iff active and its box strictly overlaps the target's |
| Comets.Comet.TakeDamage | js/entities/Comet.js:82-91 | hp drops by the damage; destroyed iff hp ≤ 0, and then inactive; otherwise the active flag is kept |
| Comets.UnitHitsToBreak | js/entities/Comet.js:82-91 | the number of unit hits that breaks a new comet equals its table hp (three for a large one) |
| PowerUps.KindFromName | js/systems/PowerUpManager.js:57-71 | one of the five type names gives its kind, any other name gives nothing |
| PowerUps.KindName | js/systems/PowerUpManager.js:57-71 | one of the five type names createPowerUp accepts |
| PowerUps.KindNameRoundTrip | js/systems/PowerUpManager.js:57-71 | every kind's name maps back to that kind |
| PowerUps.EffectOf | js/entities/PowerUp.js:132-245 | each kind has its own effect: life, and only life, gains a life; shield, and only shield, shields; rocket, and only rocket, adds ammunition; autofire and tripleshot, and only they, start a timer named after the type, of 4 and 5 seconds |
| PowerUps.LivesAfterLife | js/entities/PowerUp.js:132-138 | one more life below 3; otherwise unchanged, so never above 3 from at most 3 |
| PowerUps.PowerUp.constructor | js/entities/PowerUp.js:6-16 | at (x, y) with its kind, active, not collected |
| PowerUps.PowerUp.Move | js/entities/PowerUp.js:74-84 | an inactive power-up stays put; an active one falls by 80·dt and deactivates past the zone's bottom |
| PowerUps.PowerUp.Hit | js/entities/PowerUp.js:86-96 | true iff active, not collected, and its 30 × 30 box strictly overlaps the player's |
| PowerUps.PowerUp.Activate | js/entities/PowerUp.js:99-107 | collected and inactive, so no later hit succeeds; returns the kind's effect |
| SpawnRules.WeightedPick | js/systems/PowerUpManager.js:42-55 | the cumulative-subtraction loop returns the weighted choice `Pick` of the scaled draw |
| SpawnRules.DropChance | js/systems/PowerUpManager.js:26-29 | 0.08 plus 0.03 per ten waves: at least 0.08, and exactly 0.08 in the first ten waves |
| SpawnRules.RandomPowerUpType | js/systems/PowerUpManager.js:42-55 | the weighted choice over life 5, shield 20, autofire 15, tripleshot 12, rocket 3 for the draw scaled to 55 |
| SpawnRules.PowerUpIntervals | js/systems/PowerUpManager.js:42-55 | for r in [0, 55): life up to 5, shield up to 25, autofire up to 40, tripleshot up to 52, rocket above; the fallback is never reached |
| SpawnRules.RandomCometSize | js/systems/CometManager.js:26-38 | the weighted choice over small 50, medium 35, large 15 for the draw scaled to 100 |
| SpawnRules.CometSizeIntervals | js/systems/CometManager.js:26-38 | for r in [0, 100): small up to 50, medium up to 85, large above |
| SpawnRules.SpawnInterval | js/systems/CometManager.js:22-24 | an interval in [3, 6) for a draw u in [0, 1) |
| SpawnRules.RocketDropChance | js/systems/CometManager.js:99-107 | 0.05, 0.075 and 0.10 for the three sizes, 0 for any other, so positive exactly for the three sizes |
| Games.KindForDraw | js/systems/PowerUpManager.js:42-55 | the kind whose name the weighted choice over the spawn weights gives for a draw in [0, 1) |
| Games.SizeForDraw | js/systems/CometManager.js:26-38 | the size the weighted choice over the size weights gives for a draw in [0, 1) |
| Games.Ticked | js/Game.js:569-576 | the timers still running: each was there before and now holds its old value minus dt, which is positive; every timer with more than dt left is kept |
| Games.Strike | js/systems/CometManager.js:69-73 | a guarded ship is untouched; an unguarded one loses one life and stays guarded exactly when it had a life to spare |
| Games.StruckBy | js/systems/CometManager.js:69-73 | n strikes cost between 0 and n lives and leave a guarded ship untouched |
| Games.KillPoints | js/Game.js:521 | at least 1 from wave 0 on; 1 + ⌊wave/2⌋ for a regular enemy and a positive multiple of 10 for a boss |
| Games.WaveBonus | js/Game.js:216 | fifty points per wave: the bonus divided by 50 is the wave, so it grows by 50 a wave; a positive multiple of 50 from wave 1 on |
| Games.Caught | js/systems/PowerUpManager.js:85-90 | the power-ups one update collects are exactly those that were active and touch the player after falling while still in the zone |
| Games.CaughtDistinct | js/systems/PowerUpManager.js:76-92 | distinct power-ups are collected at most once each in one update |
| Games.PowerUpManager.constructor | js/systems/PowerUpManager.js:10-23 | no power-ups |
| Games.PowerUpManager.CreatePowerUp | js/systems/PowerUpManager.js:57-71 | a fresh power-up of the named kind at (x, y) for the five names, none otherwise |
| Games.PowerUpManager.TrySpawnPowerUp | js/systems/PowerUpManager.js:26-40 | nothing when the draw exceeds the wave's drop chance; otherwise exactly one fresh active power-up of the drawn kind is appended at (x, y) |
| Games.PowerUpManager.Append | js/systems/PowerUpManager.js:38 | the list gains the new power-up at its end and nothing else changes |
| Games.PowerUpManager.Update | js/systems/PowerUpManager.js:74-93 | exactly the entries inactive when visited are removed, in order; every active one falls and is collected on touching the player, staying listed until the next update; the returned list is `Caught` |
| Games.PowerUpManager.Visit | js/systems/PowerUpManager.js:77-91 | one loop step: an inactive entry is spliced out, an active one falls and reports whether it was collected |
| Games.PowerUpManager.Step | js/systems/PowerUpManager.js:85-90 | fall, then collect on touching the player; reports exactly a new collection |
| Games.PowerUpManager.Reset | js/systems/PowerUpManager.js:104-106 | no power-ups |
| Games.CometManager.constructor | js/systems/CometManager.js:6-20 | no comets, timer 0, first interval `SpawnInterval(u)` |
| Games.CometManager.SpawnComet | js/systems/CometManager.js:40-47 | exactly one fresh active comet is appended, of the drawn size, at zoneX + u·1150 and 60 above the zone |
| Games.CometManager.Tick | js/systems/CometManager.js:50-56 | the timer runs up by dt; only on reaching the interval is exactly one comet spawned, the timer restarted at 0 and a new interval drawn; otherwise the list is unchanged |
| Games.CometManager.Visit | js/systems/CometManager.js:59-76 | one loop step: an inactive comet is spliced out; an active one falls and reports a strike on the ship |
| Games.CometManager.Fly | js/systems/CometManager.js:67-75 | fall, and deactivate on hitting the ship; reports exactly `Strikes` |
| Games.CometManager.Reset | js/systems/CometManager.js:87-91 | no comets, timer 0, a new interval drawn |
| Games.StrikeCount | js/systems/CometManager.js:59-76 | the number of strikes is at most the number of comets, and 0 exactly when no comet strikes |
| Games.StruckByClosedForm | js/systems/CometManager.js:70-73 | n strikes in one update cost an unguarded ship one life when it has more than one, since the respawn shields it; with one life or none, each strike costs a life; the ship ends guarded iff it was or it survived a strike |
| Games.RowSlots | js/Game.js:199-205 | one slot per column of a row, left to right |
| Games.SlotsUpTo | js/Game.js:196-206 | the slots of the first n rows, row by row, each within its row's count |
| Games.Slots | js/Game.js:196-206 | one slot per enemy of the pattern, each within its row |
| Games.WaveSpeed | js/Game.js:231-235 | 8% of the base speed 60 more per wave, 60 + 4.8·(wave − 1) below wave 20; between 60 and 150, reaching the cap of 150 exactly from wave 20 |
| Games.NextTickSpawns | js/Game.js:221 | with the timer at 2.0 and the wave pending, the very next bonus tick with dt ≥ 0 spawns it; without a pending wave it does not |
| Games.TimerTick | js/Game.js:569-576 | one pass of the timer loop: a timer holding `left` stays exactly when left − dt > 0 and then holds left − dt |
| Games.TimerLasts | js/Game.js:569-576 | a timer started at d survives n ≥ 1 passes of dt exactly while d − n·dt > 0, and then holds d − n·dt |
| Games.LivesAfterLives | js/entities/PowerUp.js:132-138 | n life power-ups never lower the lives and never lift them above 3 from at most 3 |
| Games.GainLives | js/entities/PowerUp.js:132-138 | after any sequence of collections the lives are those of the life power-ups among them |
| Games.GainRockets | js/entities/PowerUp.js:241-245 | each rocket power-up adds exactly one round |
| Games.GainShield | js/entities/PowerUp.js:161-164 | a shield power-up among them leaves the shield on with 5 seconds; without one the shield is untouched |
| Games.GainCounts | js/entities/PowerUp.js:103-106 | each listed type's counter grows by the number of that type collected; no counter is added |
| Games.GainTimers | js/Game.js:562-565 | collecting autofire or tripleshot restarts its timer at 4 or 5 seconds; every other timer is untouched |
| Games.ExtentReaches | js/Game.js:277-288 | comparing the extreme edges with a wall is the same as asking whether some active, non-dying enemy reaches it |
| Games.Heights | js/Game.js:292-295 | the height of each enemy, in order |
| Games.Bearings | js/Game.js:292-295 | the state a descent leaves alone, for each enemy in order |
| Games.RosterKept | js/Game.js:290-302 | enemies whose state other than height is unchanged are still consistent |
| Games.BreachFrom | js/Game.js:292-301 | the first enemy from i on that a descent brings to the zone's bottom, or the end |
| Games.BreachAt | js/Game.js:292-301 | the first breach is at k when no earlier enemy breaches and k does or is the end |
| Games.Breach | js/Game.js:292-301 | the first enemy whose lowered bottom reaches the zone's bottom: every earlier one does not; it does, unless it is the end |
| Games.Foes | js/Game.js:518-520 | the state "destroy all" changes, for each enemy in order |
| Games.Kills | js/Game.js:520-523 | the number of targets is at most the number of enemies |
| Games.Dropped | js/Game.js:524 | the number of power-up drops is at most the number of kills |
| Games.DropsCounted | js/Game.js:519-526 | the drops of "destroy all" number exactly as `Dropped` counts, and every one is live |
| Games.BountyFormula | js/Game.js:518-529 | the score of "destroy all" is (1 + ⌊wave/2⌋)·(kills + 9·boss kills) |
| Games.Hulls | js/Game.js:532-534 | the comet state "destroy all" changes, for each comet in order |
| Games.Spread | js/Game.js:638-648 | three lasers under triple shot (centre, 15 left, 15 right) and one otherwise, all within 15 of the centre, the first at the centre |
| Games.Game.constructor | js/Game.js:23-97 | wave 1, three lives, no score, no ammunition, formation moving right and not ready, no timers and fresh statistics; pools of 10 player lasers, 20 enemy lasers and 5 rockets; empty managers; a ship at its starting place |
| Games.Game.ResetGame | js/Game.js:125-190 | wave 1, three lives, no score, no kills or ammunition, direction right and not ready, no timers, no cheats used, fresh statistics; a new ship at its starting place; every pooled shot released; both managers emptied; the first wave's formation laid out anew |
| Games.Game.ResetState | js/Game.js:125-146 | everything of resetGame but the formation |
| Games.Game.ResetCounters | js/Game.js:126-138 | the counters and flags of resetGame |
| Games.Game.Clear | js/Game.js:142-146 | every pooled shot released, both managers emptied, the next comet interval drawn |
| Games.Game.ReleasePools | js/Game.js:142-144 | every pooled laser and rocket inactive |
| Games.Game.EndGame | js/Game.js:680 | the game is over |
| Games.Game.InitEnemies | js/Game.js:192-207 | the enemies already listed are kept; one fresh enemy per slot of the wave's pattern is appended, each placed at zoneX + 60·col + startX with its row's kind, weapon, rate and health |
| Games.Game.PlaceRows | js/Game.js:196-206 | the outer loop appends the slots of every row, in order |
| Games.Game.PlaceRow | js/Game.js:199-205 | the inner loop appends one enemy per column of one row, left to right |
| Games.Game.RespawnPlayer | js/Game.js:491-511 | one life fewer; with none left only the game ends; otherwise a fresh ship with a cold weapon at the same place, shielded for 5 seconds, and every enemy laser inactive |
| Games.Game.StartNextWave | js/Game.js:214-224 | 50 points per wave just completed, bonus shown for 2 seconds, next wave pending, wave + 1 |
| Games.Game.RebuildFormation | js/Game.js:227-235 | a new formation of the current wave's pattern, not ready, every enemy at `WaveSpeed` |
| Games.Game.SpawnNextWave | js/Game.js:226-237 | the pending wave's formation replaces the old one at the wave's speed; not ready; nothing pending |
| Games.Game.JumpToWave | js/Game.js:543-560 | below 1 nothing changes; otherwise that wave with a new formation at its speed, not ready, and the ship back at its starting place |
| Games.Game.DrawWaveBonus | js/Game.js:374-382 | nothing when the timer is out; otherwise it runs down by dt, and a pending wave spawns exactly when the new timer is ≤ 2 |
| Games.Game.SetSpeeds | js/Game.js:233-235 | every enemy of the formation moves at the given speed, still in its slot |
| Games.Game.ActivatePowerUp | js/Game.js:562-565 | the named timer is (re)started at the duration, the others untouched |
| Games.Game.TickTimers | js/Game.js:569-576 | every timer runs down by dt and exactly those reaching zero or below are deleted |
| Games.Game.Apply | js/entities/PowerUp.js:99-245 | one activation: the kind's effect on lives, shield, timers or ammunition, then its counter; no other statistic changes |
| Games.Game.Collect | js/systems/PowerUpManager.js:88-90 | the activations of the caught power-ups, in order |
| Games.Game.Shoot | js/entities/Projectile.js:79-92 | one more player laser from the pool joins the volley; the pool is unchanged in length or grows by one fresh laser; no other laser changes |
| Games.Game.FireWings | js/Game.js:583-589 | one laser from each wing, 10 in from either side of the ship |
| Games.Game.AutoFire | js/Game.js:579-596 | without the autofire timer nothing changes; with it the countdown runs by dt, and on reaching zero two wing lasers fire, two basic shots are counted and the countdown restarts at 0.15; the shot statistics stay balanced |
| Games.Game.FireRocket | js/Game.js:618-625 | one rocket up from the centre, one round spent, one rocket shot counted |
| Games.Game.FireLasers | js/Game.js:638-648 | the lasers of `Spread`, in that order, from the pool |
| Games.Game.FirePlayerWeapon | js/Game.js:610-651 | with ammunition: one rocket, one round fewer, no heat; otherwise one heat attempt unless skipped, which may refuse and then change no statistic; then three lasers under triple shot or one; each successful call counts one shot in the total and one under its weapon |
| Games.Game.UpdatePowerUps | js/Game.js:567-604 | timers, auto-fire, power-ups and comets in that order keep the game and the managers consistent and the statistics balanced |
| Games.Game.Countdown | js/Game.js:569-597 | every timer runs down by dt and those reaching zero are deleted; then, with no autofire timer left nothing fires; with one, the auto-fire count runs down by dt, and on reaching zero two lasers fire from the wings, two basic shots are counted and the count restarts at 0.15 s |
| Games.Game.UpdateComets | js/systems/CometManager.js:49-77 | the spawn timer (a comet of the drawn size at the top of the zone when it reaches the drawn interval), then the comet loop over the list so extended: inactive comets are dropped, the others move, and each strike costs an unguarded ship a life |
| Games.Game.SpawnComets | js/systems/CometManager.js:49-56 | the spawn timer alone: the old comets kept in place and, when the timer reaches the drawn interval, one fresh active comet of the drawn size at (zoneX + u·(width − 50), zoneY − 60), the timer at zero and a new interval drawn |
| Games.Game.CatchThenComets | js/Game.js:599-603 | the falling power-ups then the comets keep the game consistent and change no statistic but the collection counts |
| Games.Game.Catch | js/systems/PowerUpManager.js:74-93 | the caught power-ups are `Caught`, the inactive ones are removed, and the game gains exactly their activations in order |
| Games.Game.Gather | js/systems/PowerUpManager.js:88-90 | the game gains exactly the activations of the caught power-ups |
| Games.Game.SweepComets | js/systems/CometManager.js:58-76 | exactly the comets inactive when visited are removed; every active one falls; the lives and guard are those after `StrikeCount` strikes; the game ends exactly when a strike took the last life |
| Games.Game.SweepStep | js/systems/CometManager.js:59-76 | one step of the comet loop, with the ship taking its strike |
| Games.Game.VisitComet | js/systems/CometManager.js:62-69 | the comet's side of one loop step: an inactive comet is spliced out, an active one moves, and the result says exactly whether it hits the ship's box; the ship is left as it was |
| Games.Game.Brace | js/systems/CometManager.js:70-73 | the ship's side of one loop step: an unguarded ship takes the strike when hit, and the loop invariant (lives, guard and game-over so far) holds one comet further |
| Games.Game.Absorb | js/systems/CometManager.js:70-73 | one more strike when hit |
| Games.Game.TakeStrike | js/systems/CometManager.js:70-73 | a strike respawns the ship unless it is invulnerable |
| Games.Game.StrikeAllEnemies | js/Game.js:517-529 | every active, non-dying enemy scores (1 + ⌊wave/2⌋)·(10 for a boss), counts a kill, may drop a power-up, and ends at health −1 (dying from frame 0, or gone for a boss); others are untouched; the power-ups appended are exactly `Drops` of the enemies' states, spots and draws, from the last enemy to the first |
| Games.Game.StrikeOne | js/Game.js:519-528 | one step of that loop |
| Games.Game.StrikeIfTarget | js/Game.js:519-528 | an enemy that is active and not dying is killed, with its points, one kill and a drop exactly when the drop draw succeeds; any other enemy is left alone; earlier power-ups keep their place |
| Games.Game.Kill | js/Game.js:521-526 | one target: its kill points, one kill, health set to 0 and then one point of damage; when the drop draw succeeds, one new live power-up of the kind the type draw selects at the middle of the enemy's top edge (x + w/2, y); the enemy does not move |
| Games.Game.HandleProjectileHit | js/systems/CometManager.js:94-117 | one point of damage; only a comet that breaks scores its points and, below its size's chance, drops one rocket round |
| Games.Game.HitAllComets | js/Game.js:531-538 | every active comet takes one hit; the score and ammunition grow by exactly those of the comets that break |
| Games.Game.HitOne | js/Game.js:533-537 | one step of that loop |
| Games.Game.DestroyAllEnemies | js/Game.js:513-541 | the enemy loop, then the comet loop: score, kills, ammunition and the appended power-ups (exactly `Drops`) as both loops state |
| Games.Game.HitCometsAfter | js/Game.js:531-538 | the comet loop, with the struck enemies left as they were |
| Games.Game.UpdateFormationMovement | js/Game.js:239-303 | nothing without enemies; until ready, it becomes ready exactly when all have landed; once ready, it reverses exactly at the wall it marches towards, lowers every landed active enemy by 20 up to and including the first that reaches the bottom, and that one ends the game; nothing else about any enemy changes |
| Games.Game.Turn | js/Game.js:258-288 | reverses exactly at the wall the formation marches towards, measured over active, non-dying enemies |
| Games.Game.AllLanded | js/Game.js:244-250 | true iff no enemy is flying |
| Games.Game.FormationExtent | js/Game.js:262-273 | the leftmost and rightmost edges over the active, non-dying enemies, and whether there are any |
| Games.Game.Descend | js/Game.js:291-301 | the descent stops at the first breach, which ends the game; enemies up to it are lowered if landed and active, later ones stay |
| Games.Game.Sink | js/Game.js:293-300 | one enemy lowered by 20 if landed and active, reporting whether it reached the bottom |
| Scores.Insert | js/systems/ScoreManager.js:44-49 | the entry is added to the list, nothing else |
| Scores.InsertSorted | js/systems/ScoreManager.js:44-49 | inserting into a sorted list keeps it sorted |
| Scores.Sort | js/systems/ScoreManager.js:44-49 | a permutation sorted by score descending, then time ascending |
| Scores.Slice | js/systems/ScoreManager.js:52 | a prefix of length min(end, n) for end ≥ 0 (a negative end counts from the back) |
| Scores.SlicePreservesSorted | js/systems/ScoreManager.js:52 | a prefix of a sorted list is sorted |
| Scores.NickOf | js/systems/ScoreManager.js:14-22 | the nick when the data and a non-empty nick are present, nothing otherwise |
| Scores.StoreScore | js/systems/ScoreManager.js:41-54 | min(n + 1, 100) entries, sorted; they are the best of the old entries and the new one: none left out ranks before one kept; below 100 stored, exactly the old entries plus the new one |
| Scores.TopOfSorted | js/systems/ScoreManager.js:52 | the first n entries of a sorted list are its n best |
| Scores.BestByNick | js/systems/ScoreManager.js:125-142 | every kept entry has a positive score, is filed under its own nick and comes from the input |
| Scores.NickOrder | js/systems/ScoreManager.js:145 | no more nicks than entries, each of them a key of the map |
| Scores.BestByNickIsBest | js/systems/ScoreManager.js:125-142 | each kept entry is from the input under its own nick with a positive score and is beaten by no input entry; every positive-scored nick is kept; no entry with score ≤ 0 is kept |
| Scores.BestByNickFirstOnTie | js/systems/ScoreManager.js:137-141 | the kept entry strictly beats every earlier entry of its nick, so on a full tie the first one seen stays |
| Scores.NickOrderIsKeys | js/systems/ScoreManager.js:145 | the map's key order lists each kept nick exactly once |
| Scores.ValuesInOrder | js/systems/ScoreManager.js:145 | the map's values in key order |
| Scores.UniqueNickBoard | js/systems/ScoreManager.js:145-151 | the deduplicated board is sorted |
| Scores.KeptValues | js/systems/ScoreManager.js:125-145 | the values in key order carry distinct nicks and are the kept entries |
| Scores.UniqueNickBoardKeepsBest | js/systems/ScoreManager.js:124-151 | one entry per nick, each the kept best of its nick, from the input, with a positive score |
| Scores.UniqueNickBoardCoversPlayers | js/systems/ScoreManager.js:124-151 | every player with a positive score is on the board with an entry they do not beat |
| Scores.ScoreManager.constructor | js/systems/ScoreManager.js:5-9 | the stored list as given, no cache |
| Scores.ScoreManager.SaveScore | js/systems/ScoreManager.js:12-62 | refuses missing data, a missing or empty nick and scores ≤ 0, storing nothing; otherwise returns the new entry (email defaulting to empty) and stores `StoreScore` of it, so the stored list is sorted and keeps the top 100 of the old list and the new entry |
| Scores.ScoreManager.FetchLimit | js/systems/ScoreManager.js:116 | max(3·limit, 300) |
| Scores.ScoreManager.TopScoresUniqueNicks | js/systems/ScoreManager.js:107-161 | nothing, with the cache untouched, when the fetch fails or is empty; otherwise the cache holds the whole deduplicated board and the result is its first `limit` entries |
| Scores.ScoreManager.TopScoresUniqueNicksSync | js/systems/ScoreManager.js:166-174 | nothing without a cache, else its first `limit` entries (at most `limit`) |
| Scores.ScoreManager.FindPlayerRank | js/systems/ScoreManager.js:184-232 | nothing for invalid data, a score ≤ 0 or no cache; otherwise the 1-based position of the first cache entry with the nick, with 1 ≤ rank ≤ length, or nothing iff no entry has it |
| PlayerStore.TrimStart | shared/player-data.js:84-85 | the longest suffix not starting with white space; everything dropped is white space |
| PlayerStore.TrimEnd | shared/player-data.js:84-85 | the longest prefix not ending with white space; everything dropped is white space |
| PlayerStore.Trim | shared/player-data.js:84-85 | the stretch of the input between its leading and trailing white space: no white space at either end, and empty exactly when the input is all white space |
| PlayerStore.TrimIdempotent | shared/player-data.js:84-85 | trimming twice is trimming once |
| PlayerStore.TrimKeeps | shared/player-data.js:84-85 | a string with no white space at its ends is its own trim |
| PlayerStore.Validate | shared/player-data.js:82-110 | missing fields count as empty and both are trimmed; errors in the source's order: nick empty, of length 1, over 20, email empty, over 40; valid iff 2 ≤ nick length ≤ 20 and 1 ≤ email length ≤ 40 |
| PlayerStore.ValidateIgnoresLeadingSpace | shared/player-data.js:84-85 | leading white space on either field does not change the verdict |
| PlayerStore.Merge | shared/player-data.js:126-131 | every key of the updates gets its new value; every other existing key keeps its own |
| PlayerStore.ValidDataIsPresent | shared/player-data.js:58-61 | trimmed valid data counts as present player data |
| StartMenus.Layout | js/ui/StartMenu.js:48-75 | the two fields line up, the email field 70 (80 on mobile) below the nick field, the start button below both |
| StartMenus.MenuCheck | js/ui/StartMenu.js:177-193 | passes iff the trimmed nick has at least 2 characters and the trimmed email is not empty; the errors are nick required, nick too short and email required |
| StartMenus.MenuAgreesWithValidation | js/ui/StartMenu.js:177-193 | for the lengths typing allows (20 and 40), the menu's check and `validatePlayerData` agree |
| StartMenus.LongNickPassesMenuOnly | js/ui/StartMenu.js:177-193 | a nick over 20 characters (a saved one) passes the menu but fails `validatePlayerData` |
| StartMenus.StartMenu.constructor | js/ui/StartMenu.js:4-46 | the saved nick and email or empty, nick field selected, neither field active, no error, the computed layout |
| StartMenus.StartMenu.Update | js/ui/StartMenu.js:77-85 | the start button is hovered iff the point is inside it |
| StartMenus.StartMenu.ValidateAndStart | js/ui/StartMenu.js:177-206 | the error is `MenuCheck`; data is returned iff it passes, and is then the trimmed nick and email |
| StartMenus.StartMenu.HandleKeyPress | js/ui/StartMenu.js:118-149 | Enter on the nick moves to the email field; Enter on the email validates; Backspace removes the last character of the active field if any; a single character is appended only below 20 or 40; any other key changes nothing; typing never lengthens a field past its limit |
| StartMenus.StartMenu.HandleClick | js/ui/StartMenu.js:87-116 | a click in the nick field selects it alone, then the email field likewise; otherwise a hovered button validates; otherwise both fields are deactivated |
| GameOver.NatToString | js/ui/GameOverScreen.js:56 | decimal digits with no leading zero |
| GameOver.DigitChar | js/ui/GameOverScreen.js:56 | the digit character of a value below 10 |
| GameOver.NatToStringRoundTrip | js/ui/GameOverScreen.js:56 | the digits read back as the number |
| GameOver.IntToString | js/ui/GameOverScreen.js:56 | `toString` of an integer, with a minus sign below zero |
| GameOver.FormatScore | js/ui/GameOverScreen.js:54-57 | the digits of the score with one space per full group of three after the first, after a minus sign for a negative score |
| GameOver.Group | js/ui/GameOverScreen.js:56 | one space added per full group of three digits after the first |
| GameOver.GroupLayout | js/ui/GameOverScreen.js:56 | spaces stand exactly at the positions whose distance to the end is a multiple of 4, never at the front |
| GameOver.GroupRoundTrip | js/ui/GameOverScreen.js:56 | deleting the spaces gives back the digits |
| GameOver.FormatScoreRoundTrip | js/ui/GameOverScreen.js:54-57 | deleting the spaces of a formatted score gives back `score.toString()`; scores strictly between −1000 and 1000 are unchanged |
| GameOver.JsRem | js/ui/GameOverScreen.js:234 | JavaScript's `%`: the mathematical remainder for a ≥ 0, never positive for a < 0, and smaller than b in size |
| GameOver.TimeStringShape | js/ui/GameOverScreen.js:232-235 | minutes, a colon and exactly two second digits (zero-padded below 10), reading back as ⌊t/60⌋ and t mod 60 |
| GameOver.TimeString | js/ui/GameOverScreen.js:410-412 | the minutes, then a colon, then the seconds |
| GameOver.ElapsedTimeString | js/ui/GameOverScreen.js:232-235 | for a non-negative time: the whole minutes, a colon and two digits whose value is the remaining whole seconds |
| GameOver.TruncateNick | js/ui/GameOverScreen.js:399-401 | up to 12 characters unchanged; longer, the first 12 and "..." (15 in all) |
| GameOver.RestartButton | js/ui/GameOverScreen.js:27-43 | 250 × 60; on a screen at most 620 high, 50 from the right edge at 350; otherwise centred, 100 above the bottom |
| GameOver.Progress | js/ui/GameOverScreen.js:65 | in [0, 1], and 1 exactly from 0.45 seconds on |
| GameOver.ProgressMonotone | js/ui/GameOverScreen.js:65 | progress never falls as the animation time grows |
| GameOver.GameOverScreen.constructor | js/ui/GameOverScreen.js:4-25 | the layout's button, not hovered, alpha 0, scale 5, timers and shake at 0 |
| GameOver.GameOverScreen.Reset | js/ui/GameOverScreen.js:45-52 | alpha 0, scale 5, animation and shake timers and intensity at 0 |
| GameOver.GameOverScreen.Update | js/ui/GameOverScreen.js:59-92 | during the animation the time advances by the frame time (dt, or 0.016 when dt is 0); alpha stays in [0, 255] and only rises, scale stays in [1.2, 5] and only falls; the shake starts at 0.3 s and intensity 15 exactly when the animation ends, then runs down by the frame time with the intensity falling by 50 per second, not below 0; on desktop the button is hovered iff the point is inside it |
| GameOver.FrameTime | js/ui/GameOverScreen.js:64 | dt itself whenever dt is not 0 (so positive for positive dt), and positive for dt = 0 |
| GameOver.GameOverScreen.HandleClick | js/ui/GameOverScreen.js:94-114 | on mobile, restart iff the point is inside the closed button rectangle; on desktop, iff hovered |

## Left out

- StartMenus.MenuAgreesWithValidation: the form and validatePlayerData refuse for the same rule, but their messages for a missing email differ ("Email jest wymagany!" in the form, "Email/hasło jest wymagane!" in validatePlayerData); the model names the rule, not the text.
- Rendering is left out: every `show`, `draw` and `drawIcon`, the p5 calls, the stars, and the text of the wave bonus. Only the timer and spawn lines of `drawWaveBonus` are modelled.
- `Math.random()` is not modelled as a generator. Each draw is a parameter in [0, 1).
- `Enemy.shootAtPlayer` is left out because it uses square roots and trigonometry. `Enemies.Enemy.Move` reports that a boss fires an aimed shot but does not spawn the projectiles.
- `Rocket.inExplosionRadius` is left out because it takes a square root and no modelled code calls it.
- The per-frame collision loop and the spatial grid are not part of this model. `Games.Game.HandleProjectileHit` is the comet side of a hit; which projectile hits what is not modelled.
- `localStorage`, `fetch`, `Date.now()` and `toFixed` are inputs or left out. The stored list, the fetched list and the timestamp are parameters. A failed fetch is `None`.
- `getLocalScores`, `clearScores`, `preloadLeaderboard`, the deprecated `getTopScores`, `loadPlayerData`, `savePlayerData` and the menu's save are storage I/O and are left out.
- The online-leaderboard switch is always on in the source, so the model always takes the online path.
- Viewport and input plumbing are left out. The zone's origin, the key state, the cursor position and the mobile flag are parameters.
- Numbers are exact reals, not IEEE doubles. String lengths count characters, not UTF-16 code units.
- `endGame` only sets `gameOver`. Saving the score, the statistics timestamps and showing the game-over screen are not modelled.
- `isOverheated` is left out because it only reads the lock flag, which the model reads directly.
- Scores.Sort: proves that the result is a sorted permutation. It does not prove the exact order the engine's stable sort gives to entries that tie on both score and time.
- Games.Game.UpdatePowerUps: states only that the game stays consistent and the statistics balanced. What each part does is stated by `Countdown`, `Catch` and `UpdateComets`.
- WavePatterns.PatternNameForWave: requires wave ≥ 1. For wave 0 or below, the source would index the rotation at a negative position and return undefined. The game never calls it that way.
- Enemies.Enemy.Move: reports a boss's aimed shot as a tag. It does not model the projectiles that shot creates.
- The game's constructor creates the ship at once. The source creates it in `resetGame`.
