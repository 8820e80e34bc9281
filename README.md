# Crash Derby Monsters: a Dafny model of the arcade combat core

Crash Derby Monsters is a top-down demolition derby. The player drives one
monster car against four AI opponents until one side is wrecked. This project
models the rules that decide a round and proves properties of them:

- the health, shield and invulnerability state of both car kinds, and the
  player's combo scoring and power-ups;
- the scene's collision, pickup and pitfall handlers, with the pitfall
  debounce;
- the power-up and pitfall spawners with their caps and despawn timers;
- the countdown, the per-frame update with its lose check, the destroyed
  handler, the end of the game and the result it hands on;
- the AI's retarget and steering decision;
- the colour helper `darken`;
- the constant tables.

Modules, following the program's files:

| module | file | models |
|---|---|---|
| `Config` | config.dfy | src/config.js: the roster and every tuning table, as constants |
| `Combat` | combat.dfy | the pure rules both car classes and the scene share: the damage rule, scoring, tints, the drive and steering commands, the retarget rule, `safePosition`, the pitfall key and debounce |
| `PlayerCar` | player.dfy | src/entities/Player.js as the class `Player` |
| `Opponent` | aicar.dfy | src/entities/AiCar.js as the class `AiCar` |
| `SceneRules` | scenerules.dfy | the scene's invariants and the value-level outcomes of its handlers |
| `Arena` | gamescene.dfy | src/scenes/GameScene.js as the class `GameScene`, plus `create` |
| `Palette` | palette.dfy | `PreloadScene.darken` |

Each car is a class whose methods update its fields in place. Each method is
proved against the pure rule in `Combat` that the other car kind and the scene
also use. For example, `Player.TakeDamage` and `AiCar.TakeDamage` both ensure
`Health() == Combat.TakeDamage(old(Health()), amount)`. The properties of the
rule itself, such as "dies at most once" and "hp stays in range", are lemmas
about `Combat.TakeDamage`.

The scene is a class with an invariant `Valid()` that every handler keeps.
It is made of four parts:

- the cars' own invariants;
- the flow:
  - the game state only goes forward;
  - a decided outcome exactly when the game is over;
  - a victory only with no AI car left;
  - a running power-up timer only while playing;
- the field:
  - the caps hold;
  - every sprite has its own id;
  - every power-up has its despawn scheduled, and every oil slick its
    evaporation;
- aiCarsAlive counts the live AI cars.

Timers are modelled as methods whose precondition says the callback is
scheduled. Examples are `ExpireInvulnerability`, `ExpireSpeedBoost`,
`CountdownTick`, `UnpausePitfallTimer`, `DespawnPowerup` and `ReportResult`.
A repeating timer's paused flag is a field. The following come in as
parameters:

- the random draws, which are reals in [0, 1);
- the scene clock;
- the relative speed of a contact and the player's speed;
- the AI's wrapped heading difference;
- the held keys.

## Model

| member | source | states |
|---|---|---|
| Config.RosterIdsDistinct | src/config.js:8-65 | the roster has eight entries and no two share an id |
| Config.WithoutIdMembers | src/scenes/GameScene.js:118-119 | the filtered roster holds exactly the roster's entries of another id |
| Config.WithoutIdRemovesOne | src/scenes/GameScene.js:118-119 | filtering a roster of distinct ids by one entry's id removes exactly that entry |
| Config.RosterLeavesEnoughOpponents | src/config.js:8-69 | whatever roster entry is picked, seven others remain, at least the opponent count of four |
| Config.InnerArenaInsideGameArea | src/config.js:72-78 | the inner rectangle [22,778]x[22,578] lies inside the 800x600 game area |
| Config.EffectConstantsPositive | src/config.js:112-131 | timed power-ups last a positive time with a multiplier above 1; the shield absorbs at least one hit; pit damages and the oil duration are positive |
| Combat.TakeDamage | src/entities/Player.js:91-118 | no change while invulnerable or dead (checked before the shield); the shield absorbs a hit whole without invulnerability; otherwise hp drops clamped at 0 and invulnerability starts; soundness is kept; the car dies exactly when an unshielded hit takes its last hp; hp never rises |
| Combat.DeathIsFinal | src/entities/Player.js:91-123 | a dead car stays dead with the same hp along any later history of hits, window ends and pickups |
| Combat.DiesAtMostOnce | src/entities/AiCar.js:103-113 | along any history a car dies at most once, and exactly once when it starts alive and ends dead, so the destroyed notification fires at most once |
| Combat.InvulnerableWindowBlocksHits | src/entities/AiCar.js:83-101 | while the invulnerability window is open, any number of hits of any size changes nothing |
| Combat.HpStaysInRange | src/entities/Player.js:104 | with non-negative damage, hp stays in [0, maxHp] and never rises along any history |
| Combat.AddScore | src/entities/Player.js:166-177 | the combo grows by one when the last scoring event was under 2000 ms ago and resets otherwise; the time is recorded; the credit is points + (points*combo+1) div 2 |
| Combat.RoundedCredit | src/entities/Player.js:175-176 | Math.round(p*(1+c*0.5)) equals p + (p*c+1) div 2 for integer points |
| Combat.ComboScenario | src/entities/Player.js:166-177 | two hits 500 ms apart credit 10 then 15, and a third hit 3000 ms later credits 10 |
| Combat.RestoredTint | src/entities/Player.js:182-187 | the restored tint follows the precedence speed boost > shield > mega ram > none, each case in both directions |
| Combat.ShieldLabelText | src/entities/Player.js:146 | the shield's HUD label reads "SHIELD x2" |
| Combat.TurnFactor | src/entities/Player.js:54-55 | the turn factor lies in [0, 1] and is 1 from a speed of 80 up |
| Combat.PlayerDrive | src/entities/Player.js:47-86 | turn -155f for left, +155f for right otherwise, 0 without either; acceleration 360 forward, -180 reverse, 0 otherwise; drag 5x base while braking; top speed 250 times the speed multiplier |
| Combat.AiTurn | src/entities/AiCar.js:51-55 | full turn rate toward the sign of the heading difference outside the 0.1 dead band, and 0 inside it, each in both directions |
| Combat.ChooseTarget | src/entities/AiCar.js:64-78 | a chase targets the player's position with the next retarget in [t+800, t+2000); otherwise the target lies in [60,740)x[60,540) with the next retarget in [t+2000, t+4000) |
| Combat.Aggression | src/entities/AiCar.js:27 | aggression lies in [0.35, 0.55) |
| Combat.SafePosition | src/scenes/GameScene.js:577-583 | the point lies in [70,730)x[70,530), inside the inner arena |
| Combat.TruncateToInt | src/scenes/GameScene.js:259 | `x|0` truncates toward zero: floor for non-negative x, ceiling for negative x |
| Combat.DebounceWindow | src/scenes/GameScene.js:258-262 | after a non-zero stamp, the same pit is debounced for exactly the next 1000 ms, and other pits' debounce is unaffected |
| Combat.OilSlickDrag | src/scenes/GameScene.js:270 | the slick's drag lies strictly between 0 and the base drag |
| Combat.OilSlickDragIsNotANumber | src/scenes/GameScene.js:270-274 | as written the slick's drag is NaN, not 0.55 of either car's base drag |
| PlayerCar.Player.constructor | src/entities/Player.js:9-31 | a new player car is sound and unhurt at full player hp, with no score, no power-up and a resting body with the player's drag and top speed, whatever stats were passed |
| PlayerCar.Player.Update | src/entities/Player.js:44-87 | a live car's body gets the drive commands of the held keys; a dead car's body is unchanged |
| PlayerCar.Player.TakeDamage | src/entities/Player.js:91-118 | health follows the damage rule; a real hit flashes red and schedules the flash's end; a shield hit that empties the shield clears the tint and the label; a killing hit disables the body |
| PlayerCar.Player.Die | src/entities/Player.js:120-123 | dead, inactive, and the body disabled |
| PlayerCar.Player.ExpireInvulnerability | src/entities/Player.js:113-115 | the window ends and the invariant holds |
| PlayerCar.Player.RestoreTint | src/entities/Player.js:182-187 | the tint is the precedence tint of the live power-ups |
| PlayerCar.Player.ExpireFlash | src/entities/Player.js:108-110 | a live car gets its precedence tint back; a dead car keeps red |
| PlayerCar.Player.ApplyPowerup | src/entities/Player.js:127-162 | both multipliers reset, then only the picked one boosted (so at most one differs from 1); the shield sets its hits; the tint, label and expiry follow the pick |
| PlayerCar.Player.ExpireSpeedBoost | src/entities/Player.js:137-140 | the multiplier returns to 1 with no generation check; a live car loses its tint and label |
| PlayerCar.Player.ExpireMegaRam | src/entities/Player.js:153-156 | the multiplier returns to 1 with no generation check; a live car loses its tint and label |
| PlayerCar.Player.AddScore | src/entities/Player.js:166-177 | score, combo and last hit time follow the scoring rule |
| PlayerCar.Player.SlipOnOil | src/scenes/GameScene.js:268-270 | the drawn spin and 0.55 of the player's base drag; the restore is scheduled |
| PlayerCar.Player.ExpireOilSlick | src/scenes/GameScene.js:271-276 | a live car stops spinning and gets its base drag back; a dead car is unchanged |
| Opponent.AiCar.constructor | src/entities/AiCar.js:9-36 | a new AI car is sound and unhurt at 80 hp, targets its spawn point, retargets at once, and has its aggression from the draw |
| Opponent.AiCar.ChooseTarget | src/entities/AiCar.js:64-78 | the target and next retarget time are the retarget rule's for this car's aggression and the draws |
| Opponent.AiCar.Update | src/entities/AiCar.js:40-62 | a live car retargets only when the time strictly exceeds its switch time, then steers; a dead car is unchanged |
| Opponent.AiCar.TakeDamage | src/entities/AiCar.js:82-104 | health follows the damage rule; `destroyed` is true exactly when this hit killed the car; a real hit flashes red and schedules the flash's end, a shield hit leaves the tint alone; a killing hit disables the body |
| Opponent.AiCar.Die | src/entities/AiCar.js:106-114 | dead, inactive, and the body disabled |
| Opponent.AiCar.ExpireInvulnerability | src/entities/AiCar.js:99-101 | the window ends and the invariant holds |
| Opponent.AiCar.ExpireFlash | src/entities/AiCar.js:94-96 | a live car is untinted, dropping any power-up tint |
| Opponent.AiCar.Empower | src/scenes/GameScene.js:226-251 | only the picked multiplier or the shield is set and the other multiplier keeps its value; the tint follows the pick; a timed pick schedules its expiry |
| Opponent.AiCar.ExpireSpeedBoost | src/scenes/GameScene.js:231-234 | the multiplier returns to 1; a live car is untinted |
| Opponent.AiCar.ExpireMegaRam | src/scenes/GameScene.js:243-246 | the multiplier returns to 1; a live car is untinted |
| Opponent.AiCar.SlipOnOil | src/scenes/GameScene.js:268-270 | the drawn spin and 0.55 of the AI base drag; the restore is scheduled |
| Opponent.AiCar.ExpireOilSlick | src/scenes/GameScene.js:271-276 | a live car stops spinning and gets its base drag back |
| SceneRules.ForwardOnly | src/scenes/GameScene.js:388-393 | along any run of state steps the game state never goes back, and a game that is over stays over |
| SceneRules.RemovedKeepsIds | src/scenes/GameScene.js:215 | removing a sprite keeps the ids unique and below the next id, and the removed id is gone |
| SceneRules.PowerupAddedKeepsField | src/scenes/GameScene.js:313-336 | a power-up added under the cap with the next id, with its despawn scheduled, keeps the field invariant |
| SceneRules.PitfallAddedKeepsField | src/scenes/GameScene.js:339-359 | a pitfall added under the cap with the next id, an oil slick with its evaporation scheduled, keeps the field invariant |
| SceneRules.PowerupRemovedKeepsField | src/scenes/GameScene.js:215 | taking a power-up off the field keeps the field invariant, and its id is no longer found |
| SceneRules.PitfallRemovedKeepsField | src/scenes/GameScene.js:358 | taking a pitfall off the field keeps the field invariant, and its id is no longer found |
| SceneRules.DespawnDoneKeepsField | src/scenes/GameScene.js:336 | dropping a finished despawn for an id no longer on the field keeps the field invariant |
| SceneRules.EvaporationDoneKeepsField | src/scenes/GameScene.js:358 | dropping a finished evaporation for an id no longer on the field keeps the field invariant |
| SceneRules.AliveWithin | src/scenes/GameScene.js:129-130 | the live count lies between 0 and the number of AI cars |
| SceneRules.NoneAliveIffZero | src/scenes/GameScene.js:438 | the live count is 0 exactly when no AI car is alive |
| Arena.Opponents | src/scenes/GameScene.js:118-120 | there are at most four opponents |
| Arena.OpponentsAreOthers | src/scenes/GameScene.js:118-120 | every opponent is a roster entry with another id than the pick's, and there are min(others, 4) of them |
| Arena.OpponentsOfRosterPick | src/scenes/GameScene.js:107-124 | a roster pick faces exactly four opponents, itself not among them, and each has a spawn point |
| Arena.SpawnPlayer | src/scenes/GameScene.js:95-104 | a fresh player car, unhurt at (400, 480), named after the selected monster |
| Arena.SpawnAiCars | src/scenes/GameScene.js:106-131 | one fresh, distinct, unhurt AI car per opponent, at the spawn point of its index, with its name, texture and drawn aggression |
| Arena.SetEnabled | src/scenes/GameScene.js:369 | every AI car's body is enabled or disabled as asked, the rest of it unchanged |
| Arena.GameScene.Setup | src/scenes/GameScene.js:20-30 | the scene is valid with every AI car alive and counted, totalAiCount the number of opponents, countdown 3, no sprites and both timers paused |
| Arena.GameScene.StartCountdown | src/scenes/GameScene.js:366-376 | every body is frozen and the count is 3 |
| Arena.GameScene.EnableBodies | src/scenes/GameScene.js:368-369 | the player's and every AI car's body enabled or disabled, the invariant kept |
| Arena.GameScene.CountdownTick | src/scenes/GameScene.js:380-399 | the count drops by one and the state only advances; the count reaching 0 starts the game, unfreezes everyone, runs the power-up timer and schedules the pitfall timer's start; any other tick leaves the state and bodies alone |
| Arena.GameScene.Release | src/scenes/GameScene.js:388-395 | playing, timers as described, every body enabled |
| Arena.GameScene.UnpausePitfallTimer | src/scenes/GameScene.js:395 | the pitfall timer runs, whatever the game state, and the invariant holds |
| Arena.GameScene.EndGame | src/scenes/GameScene.js:447-457 | from playing, the game is over with the outcome, both timers paused, the report scheduled, and every AI car halted |
| Arena.GameScene.DecideOutcome | src/scenes/GameScene.js:447-450 | the state part of endGame, keeping the scene invariant |
| Arena.GameScene.HaltAll | src/scenes/GameScene.js:452-457 | every AI body without thrust and with drag 600 |
| Arena.GameScene.CreditPlayer | src/scenes/GameScene.js:190 | the player's score follows the scoring rule |
| Arena.GameScene.NotifyAiDestroyed | src/scenes/GameScene.js:432-441 | one car fewer alive; the destroy bonus credited; the last car of a game being played ends it in victory, otherwise the flow is kept; every AI body is kept, or halted when the game ended; the destroyed car's health and tint, and the player's health, tint and label, are untouched |
| Arena.GameScene.Uncount | src/scenes/GameScene.js:433 | the count drops by one and is the number of live cars again |
| Arena.GameScene.StrikeAi | src/entities/AiCar.js:103-113 | the car's health follows the damage rule; a hit that reaches its hp tints it red and schedules the tint's clearing, any other hit leaves the tint alone; on destruction, one fewer alive and the bonus, otherwise count and score kept; the flow is the destroyed handler's outcome; every AI body is the one before, this car's disabled when the hit killed it and all halted when the hit ended the game; the player's health, tint and label are untouched |
| Arena.GameScene.DamageAi | src/scenes/GameScene.js:188 | the hit on the AI car, with its red flash and the flash's scheduled end when the hit reaches its hp; the scene consistent and the count stale only for a car this hit destroyed; its body disabled by a killing hit, every other AI body kept |
| Arena.GameScene.StrikePlayer | src/scenes/GameScene.js:189 | the player's health follows the damage rule and a killing hit disables the body; a hit that reaches its hp tints it red and schedules the tint's end; a hit that uses up the last shield clears the tint and the label; the game does not end here |
| Arena.GameScene.OnPlayerHitAi | src/scenes/GameScene.js:182-193 | with either car dead or a relative speed under 60 nothing of the scene or the cars changes; otherwise each car takes 0.12*relSpeed times the other's damage multiplier, with the outcome Ram states, and the player is credited a hit even when both hits were absorbed |
| Arena.GameScene.Ram | src/scenes/GameScene.js:187-190 | the AI car's hit with its destroyed handler: its health, the count, the flow (victory on the last car of a game being played) and the bonus; every AI body kept, disabled for a killed car and halted on victory; then the player's health and body by the damage rule, and the hit credit; each car's red flash and its scheduled end when its hit reaches its hp, and the player's tint and label cleared when its hit uses up the last shield |
| Arena.GameScene.PlayerImpact | src/scenes/GameScene.js:187-190 | past the gate, the outcome Ram states for 0.12*relSpeed times each car's damage multiplier, the player's striking the AI car |
| Arena.GameScene.StrikeBack | src/scenes/GameScene.js:189-190 | the player's health and body by the damage rule, its red flash or its cleared shield tint and label, then the hit credit |
| Arena.GameScene.OnAiHitAi | src/scenes/GameScene.js:195-205 | the same gate and cross-multiplied damage for two AI cars, with the outcome Clash states; below the gate nothing of the scene or the cars changes; no hit credit, and only destructions change the player's score |
| Arena.GameScene.Clash | src/scenes/GameScene.js:200-202 | the first car's hit, then the second's from the standing the first left: each car's health, the count, the score by destroy bonuses only, and the flow, whose victory falls on the hit that killed the last car; each car's red flash and its scheduled end when its hit reaches its hp; every AI body kept, disabled for a killed car and halted on victory |
| Arena.GameScene.AiImpact | src/scenes/GameScene.js:199-202 | past the gate, the outcome Clash states for 0.12*relSpeed times the other car's damage multiplier |
| Arena.FleetFollowsTwice | src/scenes/GameScene.js:432-457 | two damage steps in a row make one: a car that died in either has its body disabled, and the bodies are halted when either step ended the game |
| Arena.GameScene.OnCollectPowerup | src/scenes/GameScene.js:209-216 | a live player on a power-up still on the field gets its effect (multipliers, shield, tint, HUD label, scheduled expiry) and 50 points, and it leaves the field; otherwise nothing of the scene or the player changes |
| Arena.GameScene.CollectPowerup | src/scenes/GameScene.js:211-215 | the player gets the power-up's effect (multipliers, shield, tint, HUD label, scheduled expiry), is credited 50 points, and the power-up leaves the field |
| Arena.GameScene.EmpowerPlayer | src/scenes/GameScene.js:211 | the pickup's multipliers, shield, tint and HUD label, and one more pending expiry of a speed boost or mega ram |
| Arena.GameScene.TakePowerup | src/scenes/GameScene.js:215 | the power-up is removed and the invariant holds |
| Arena.GameScene.OnAiCollectPowerup | src/scenes/GameScene.js:218-224 | a live AI car on a power-up still on the field gets its effect (no points), and it leaves the field; otherwise nothing of the scene or that car changes |
| Arena.GameScene.ApplyPowerupToAi | src/scenes/GameScene.js:226-251 | only the picked multiplier or the shield is set, the other multiplier kept; tint and expiry follow the pick |
| Arena.GameScene.OnPlayerHitPitfall | src/scenes/GameScene.js:255-289 | a live player on a pitfall still on the field and not debounced is stamped and tripped by the pitfall's kind: an oil slick leaves the health, tint and label alone, a pit hole or spike strip is a hit with its red flash or its cleared shield tint and label; otherwise nothing of the player's car changes |
| Arena.GameScene.StampPlayer | src/scenes/GameScene.js:262 | the stamp for this pit is now |
| Arena.GameScene.PlayerFalls | src/scenes/GameScene.js:267-288 | the effect of the pitfall's kind on the player's car, with the hit's tint, label and scheduled flash end for a pit hole or spike strip, and none of them changed for an oil slick |
| Arena.GameScene.PlayerIntoHole | src/scenes/GameScene.js:278-281 | a 30 hit with its red flash or its cleared shield tint and label, then the car at rest at the safe point |
| Arena.GameScene.PlayerOverSpikes | src/scenes/GameScene.js:282-285 | a 15 hit with its red flash or its cleared shield tint and label, then 0.3 of the velocity |
| Arena.GameScene.OnAiHitPitfall | src/scenes/GameScene.js:255-289 | for a triggering pitfall: the stamp, the body's effect, and the health, count, score and flow equal to the pit outcome (none for oil, a hit of 30 or 15 otherwise); for any other it changes nothing |
| Arena.GameScene.AiTriggered | src/scenes/GameScene.js:262-288 | the stamp and the effect of a triggering pitfall |
| Arena.GameScene.StampAi | src/scenes/GameScene.js:262 | the stamp for this pit is now |
| Arena.GameScene.AiFalls | src/scenes/GameScene.js:267-288 | the pitfall kind's effect and outcome for the AI car, with the red flash of a damaging pitfall and no tint change for an oil slick |
| Arena.GameScene.AiIntoHole | src/scenes/GameScene.js:278-281 | the outcome of a 30 hit and its red flash, then the car at rest at the safe point |
| Arena.GameScene.AiOverSpikes | src/scenes/GameScene.js:282-285 | the outcome of a 15 hit and its red flash, then 0.3 of the velocity |
| Arena.GameScene.Update | src/scenes/GameScene.js:407-426 | outside play nothing changes; in play the player drives, every active live AI car steers, and a dead player ends the game in defeat with every AI car halted after steering; otherwise the flow is kept |
| Arena.GameScene.SteerThenCheck | src/scenes/GameScene.js:414-425 | the AI loop and the lose check of a frame in play |
| Arena.GameScene.DrivePlayer | src/scenes/GameScene.js:412 | the player's update, keeping the invariant |
| Arena.GameScene.SteerCars | src/scenes/GameScene.js:414-416 | every active live AI car steers |
| Arena.GameScene.LoseCheck | src/scenes/GameScene.js:423-425 | a dead player in play ends the game in defeat and halts the AI cars; otherwise nothing changes |
| Arena.GameScene.ReportResult | src/scenes/GameScene.js:459-467 | the report is handed over once and is the scene's result |
| Arena.GameScene.Result | src/scenes/GameScene.js:460-467 | aiDestroyed lies in [0, totalOpponents]; victory exactly when the outcome is a victory, and then every opponent is destroyed; score and names as on the scene |
| Arena.GameScene.SpawnPowerup | src/scenes/GameScene.js:313-337 | outside play or at 3 power-ups nothing changes; otherwise a power-up of the drawn kind at the safe position under a new id, with its despawn scheduled |
| Arena.GameScene.PlacePowerup | src/scenes/GameScene.js:323-336 | the new power-up appended under the next id with its despawn scheduled |
| Arena.GameScene.SpawnPitfall | src/scenes/GameScene.js:339-360 | outside play or at 4 pitfalls nothing changes; otherwise a pitfall at the safe position under a new id, an oil slick with its evaporation scheduled |
| Arena.GameScene.PlacePitfall | src/scenes/GameScene.js:349-359 | the new pitfall appended under the next id, with an evaporation only for an oil slick |
| Arena.GameScene.DespawnPowerup | src/scenes/GameScene.js:336 | the power-up leaves the field if it is still there, or nothing changes; the despawn is done |
| Arena.GameScene.EvaporateOilSlick | src/scenes/GameScene.js:358 | the oil slick leaves the field if it is still there, or nothing changes; the evaporation is done |
| Arena.GameScene.TakePitfall | src/scenes/GameScene.js:358 | the pitfall is removed and the invariant holds |
| Arena.Create | src/scenes/GameScene.js:20-34 | the selection defaults to the first roster entry; a roster pick faces four fresh, named AI cars; the valid scene is counting down from 3 with every body frozen |
| Arena.Launch | src/scenes/GameScene.js:26-33 | the spawned cars, the scene on them and the countdown started |
| Arena.SteerAll | src/scenes/GameScene.js:414-416 | each active live car retargets and steers by its own update; the others are unchanged |
| Arena.HaltCars | src/scenes/GameScene.js:452-457 | every AI body without thrust and with drag 600, the rest unchanged |
| Palette.ShiftRightIsDiv | src/scenes/PreloadScene.js:17-18 | `x >> n` on a non-negative value is floor division by 2^n |
| Palette.DarkenChannels | src/scenes/PreloadScene.js:16-21 | each output channel is max(0, channel - amount), never more than the input's, and the result is a 24-bit colour |
| Palette.DarkenByZero | src/scenes/PreloadScene.js:16-21 | darkening a 24-bit colour by 0 leaves it unchanged |
| Palette.DarkenTwice | src/scenes/PreloadScene.js:16-21 | darkening by a then by b is darkening by a + b |

## Left out

- Rendering and effects are not modelled because they decide nothing about a round. This covers the arena drawing, every texture except `darken`, particles, tweens, camera shake, floating texts, the countdown label, the low-hp smoke and the HUD.
- Audio is not modelled because it is Web Audio plumbing.
- The menu, the game-over scene and the bootstrap are not modelled: they are presentation only.
- Physics integration is not modelled: velocity and drag integration, bounces, world bounds, colliders and overlap detection. A contact arrives as a handler call with its relative speed. Bodies hold the commands the handlers issue.
- `velocityFromRotation` is not modelled: a body's acceleration is the signed magnitude along the heading.
- The trigonometry of the AI's heading is not modelled: the wrapped difference arrives as a parameter.
- Randomness and the scene clock are not modelled. The draws, the power-up or pitfall kind, the oil spin and the time are parameters, as is the held-keys reading of the keyboard.
- `wireCollisions` and `initSpawners` are not modelled as such. Which handler runs for which pair is the caller's choice, and a spawn timer is its paused flag plus the spawn method it calls.
- SceneRules.AiCarTripped: after a damaging pitfall it states only the AI body's position and velocity. The drag, the enabled flag and the angular velocity are left unstated because a proof with the whole body was beyond the resource limit.
- Arena.GameScene.OnAiHitPitfall: through SceneRules.AiCarTripped, it states only the position and velocity of the AI body after a pit hole or spike strip.
- Arena.GameScene.AiTriggered: the same as OnAiHitPitfall.
- Arena.GameScene.AiFalls: the same as OnAiHitPitfall.
- Arena.GameScene.AiIntoHole: the same as OnAiHitPitfall.
- Arena.GameScene.AiOverSpikes: the same as OnAiHitPitfall.
- Arena.GameScene.AiStampedFalls: it records the AI car's debounce stamp after the pitfall's effect, not before it as the source does. The stamp and the effect touch disjoint fields, so the final state is the same.
- The AI car's `targetX`, `targetY` and `nextTargetTime` are one field holding a Retarget value. They are always written together, by chooseTarget and the constructor.
- Numbers are exact reals, not IEEE doubles. No rounding is modelled in the collision damage `0.12 * relSpeed * multiplier`, in the `Math.max(0, hp - amount)` of a hit (src/entities/Player.js:91-118, src/entities/AiCar.js:82-104), or in the combo product that `Math.round` receives (src/entities/Player.js:166-177). For the scores a round reaches, the combo product of an integer score and a multiple of 0.5 is exact in doubles too, so only the damage and health values may differ in their last bits.
- `body.reset(x, y)` is taken to zero the velocity, the spin and the thrust and to keep the body enabled.
- A debounce stamp of exactly 0 counts as absent, because the source tests the stamp for truthiness. Debounced models this.
- A ram can end a round in victory with the player dead, as the source does. The ram's hit on the last AI car (src/scenes/GameScene.js:188) runs the destroyed handler, which declares the victory (src/scenes/GameScene.js:438-439). The following hit on the player (src/scenes/GameScene.js:189) can then kill it, and the lose check (src/scenes/GameScene.js:423) no longer fires once the game is over. SceneRules.FlowValid therefore allows a decided victory with a dead player.
- The timers stay modelled after the game ends, as in the source. The pitfall timer's delayed start still unpauses it, callbacks of effects still run, and contacts still score. The spawners' own game-state test is what keeps the field unchanged.

## Findings

| source | as written | input that shows it | evidently intended | confidence | as-written member | corrected member |
|---|---|---|---|---|---|---|
| src/scenes/GameScene.js:270-274 | the oil slick sets the drag to `car.baseDrag * 0.55` and its restore to `car.baseDrag`, but neither car class ever assigns `baseDrag` | any car on an oil slick: `undefined * 0.55` is NaN | 0.55 of the car's base drag (the player's 320 or the AI's 260) while the slick lasts, then the base drag back | high; not executed | Combat.OilSlickDragAsWritten, Combat.OilSlickDragIsNotANumber | Combat.OilSlickDrag, PlayerCar.Player.SlipOnOil, Opponent.AiCar.SlipOnOil |
