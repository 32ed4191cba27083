# ElderCloak gameplay core in Dafny

This project models the tick-driven gameplay logic of ElderCloak, a Unity 2D action-platformer prototype, and proves properties of it. The model covers:

- melee attack resolution: the combo system, the player's timer and coroutine attacks, the attack direction choice and the two contact-damage gates;
- the six health state machines: clamping, invulnerability windows, death that fires once, heal, rescale and revive;
- the enemy behaviour machines: ground, flying and distance-based patrols, aggro hysteresis, and the configurable and melee enemy controllers;
- the player's ability counters and cooldowns: dash, multi-jump, the three character controllers, parry, stamina, the skill and health bars, the regeneration controllers and the healing items;
- the pause state machines of the pause menu, the pause script and the game manager, and the dialogue page cursor;
- the pure helpers `FindClosest`, the parabolic arc and the easing curves.

Each source file becomes one module.

- **Settings.** The inspector settings a script never writes become a `Config` datatype. Its `Defaults` constant holds the serialized values.
- **Step functions.** Each operation is specified by a pure function on a `State` snapshot. Its `ensures` clauses state what the operation promises.
- **Multi-frame lemmas.** Properties that span many frames are lemmas over a recursive run of such steps. Examples: one damage per cooldown window, jumps bounded between landings, and a bar that stays in range under decay.
- **Classes.** Each component is also a `class` with the script's own fields. Every method changes those fields exactly as its step function says, and `Model()` reads them back as a snapshot.
- **Loops.** Where the source loops, the model has a loop with its invariants: `FindClosest`, the enemy pause fan-out of the pause menu, and the hit processing of the three melee attacks.

The engine's inputs are parameters of the methods:

- `Time.time` and `Time.deltaTime` become `now` and `dt`;
- the results of overlap queries and ray casts become sequences of collider ids or booleans;
- distances become given values;
- input callbacks become their phase.

Coroutines become explicit phase or timer fields advanced by a `Tick` or `Resume` method. Unity events, `Die` and other calls with effects outside the component are returned as results. Floats are `real`. Health values and the amounts added to or taken from them are C# `int`s and are modelled as the 32-bit `Common.Int32`, with the wrap-around of their sums written out (`Common.Wrap32`); other integers, such as combo counts and indices, are unbounded `int`.

## Model

| member | source | states |
|---|---|---|
| ComboMelee.Init | Assets/Scripts/Combat/MeleeAttackSystem.cs:40-47 | a new system is idle, has no combo, no registered targets and no owner, and satisfies the invariant |
| ComboMelee.InitializeStep | Assets/Scripts/Combat/MeleeAttackSystem.cs:59-69 | after `Initialize` there is always at least one variation: the configured ones, or exactly the default attack when none were set; the owner is recorded and nothing else changes |
| ComboMelee.VariationIndex | Assets/Scripts/Combat/MeleeAttackSystem.cs:417-423 | the chosen variation index is always in bounds; it is 0 without combos or before the first swing, otherwise combo-1 capped at the last variation |
| ComboMelee.CurrentAttackData | Assets/Scripts/Combat/MeleeAttackSystem.cs:412-424 | `GetCurrentAttackData` returns null exactly when there are no variations, and otherwise the variation at `VariationIndex`: the first without combos or at combo 0, else combo-1 capped at the last |
| ComboMelee.GetAttackDamage | Assets/Scripts/Combat/MeleeAttackSystem.cs:96-100 | the reported damage is the base damage without variations, otherwise the damage field of exactly the variation `GetCurrentAttackData` selects |
| ComboMelee.NextCombo | Assets/Scripts/Combat/MeleeAttackSystem.cs:122-133 | a swing inside the combo window below the cap increments the combo, any other swing restarts it at 1, and the combo never exceeds the cap |
| ComboMelee.HitDamage | Assets/Scripts/Combat/MeleeAttackSystem.cs:263-278 | the amount one hit deals; `ResumeStep` and `SwingDamagesWhatItTouches` tie every dealt hit to it, and `ComboBonusFromSecondSwing` states what it means across a combo |
| ComboMelee.HitsFor | Assets/Scripts/Combat/MeleeAttackSystem.cs:263-268 | hits are dealt exactly to the newly registered colliders that can take damage, all with the same damage |
| ComboMelee.ProcessHitsSound | Assets/Scripts/Combat/MeleeAttackSystem.cs:245-258 | processing one query only adds to the registry, never registers the owner or an already-hit collider, registers every other queried collider, and damages only the newly registered ones |
| ComboMelee.ResumeStep | Assets/Scripts/Combat/MeleeAttackSystem.cs:153-174 | one resumption advances the swing clock by the frame delta and ends the swing once the duration is reached; inside the hitbox window the registry and the hits are exactly `ProcessHitsStep` with `HitDamage` at the current combo, outside it the registry is unchanged and nothing is hit; the invariant is kept |
| ComboMelee.StartAttack | Assets/Scripts/Combat/MeleeAttackSystem.cs:115-148 | starting a swing marks attacking, stamps the attack time, clears the hit registry, advances the combo when combos are on, and starts the swing coroutine only when there is an owner |
| ComboMelee.AttackStep | Assets/Scripts/Combat/MeleeAttackSystem.cs:81-94 | `Attack` does nothing unless attacking is allowed (not attacking and the cooldown over) and a variation exists; otherwise the swing uses the variation chosen before the combo advances, the combo becomes `NextCombo` (unchanged with combos off), the registry holds only this frame's colliders, and the invariant is kept |
| ComboMelee.UpdateStep | Assets/Scripts/Combat/MeleeAttackSystem.cs:401-407 | once the combo window has passed with combos on, the combo drops to 0; nothing else ever changes |
| ComboMelee.ResetComboStep | Assets/Scripts/Combat/MeleeAttackSystem.cs:434-437 | `ResetCombo` sets the combo to 0 and changes nothing else |
| ComboMelee.NoRepeatHitWithinSwing | Assets/Scripts/Combat/MeleeAttackSystem.cs:247-256 | within one swing a collider hit in one frame is never hit again in a later frame |
| ComboMelee.SwingDamagesWhatItTouches | Assets/Scripts/Combat/MeleeAttackSystem.cs:158-167 | on a frame inside the hitbox window every queried damageable collider that is not the owner and not yet hit in this swing takes `HitDamage` at the current combo, and only queried damageable colliders are hit, all for that amount |
| ComboMelee.ComboBonusFromSecondSwing | Assets/Scripts/Combat/MeleeAttackSystem.cs:269-275 | with combos on, the first swing of a combo deals the variation's damage, or the base damage when that is not positive, and every later swing deals that amount times the combo multiplier |
| ComboMelee.ComboWrapsAtCap | Assets/Scripts/Combat/MeleeAttackSystem.cs:124-131 | with a cap of 3, chained swings count 1, 2, 3 and then start again at 1, and a swing after the window also restarts at 1 |
| ComboMelee.FirstTwoSwingsShareVariation | Assets/Scripts/Combat/MeleeAttackSystem.cs:83-88 | because the variation is read before the combo increments, the first two swings of a fresh combo both use the first variation |
| ComboMelee.MeleeAttackSystem.constructor | Assets/Scripts/Combat/MeleeAttackSystem.cs:16-47 | a new system holds its settings and variations and is in the initial state |
| ComboMelee.MeleeAttackSystem.Initialize | Assets/Scripts/Combat/MeleeAttackSystem.cs:59-69 | the fields change as `InitializeStep` says, and the invariant is kept |
| ComboMelee.MeleeAttackSystem.Update | Assets/Scripts/Combat/MeleeAttackSystem.cs:74-77 | the fields change as `UpdateStep` says, and the invariant is kept |
| ComboMelee.MeleeAttackSystem.ResetCombo | Assets/Scripts/Combat/MeleeAttackSystem.cs:434-437 | the fields change as `ResetComboStep` says |
| ComboMelee.MeleeAttackSystem.ProcessHits | Assets/Scripts/Combat/MeleeAttackSystem.cs:245-258 | the loop over the query result leaves the registry and the dealt hits that `ProcessHitsStep` describes, with the properties of `ProcessHitsSound` |
| ComboMelee.MeleeAttackSystem.ResumeSwing | Assets/Scripts/Combat/MeleeAttackSystem.cs:153-174 | one resumption changes the fields and deals the hits as `ResumeStep` says |
| ComboMelee.MeleeAttackSystem.Attack | Assets/Scripts/Combat/MeleeAttackSystem.cs:81-89 | the fields change and hits are dealt as `AttackStep` says |
| Health.HealthPercentage | Assets/Scripts/Health/HealthSystem.cs:104 | the percentage is 0 without a positive maximum, lies in [0, 1] under the invariant, and is 1 exactly at full health |
| Health.InitializeStep | Assets/Scripts/Health/HealthSystem.cs:42-48 | `Initialize` fills health to the maximum, clears death and invulnerability and records the owner; with a positive maximum the character is alive |
| Health.SetMaxHealthStep | Assets/Scripts/Health/HealthSystem.cs:65-81 | the new maximum is never negative; with `adjustCurrent` and a positive old maximum health keeps its ratio, otherwise it is capped at the new maximum; the invariant is kept |
| Health.RestoreHealthStep | Assets/Scripts/Health/HealthSystem.cs:83-95 | restoring is ignored when dead or for a non-positive amount; otherwise health rises by the amount but not above the maximum, and the report says whether health changed |
| Health.RestoreToFullStep | Assets/Scripts/Health/HealthSystem.cs:97-100 | a living character with a positive maximum ends at full health; a dead one is unchanged |
| Health.TakeDamageStep | Assets/Scripts/Health/HealthSystem.cs:110-129 | damage is ignored when not positive, when dead, disabled or invulnerable; otherwise health drops by at most what is left, never below 0, invulnerability starts when it has a duration, and death fires exactly once when health reaches 0 |
| Health.SetInvulnerableStep | Assets/Scripts/Health/HealthSystem.cs:162-172 | the flag is set as asked; a positive duration with an owner schedules one clear at `now + duration` |
| Health.FireClearsStep | Assets/Scripts/Health/HealthSystem.cs:240-244 | every scheduled clear that is due turns invulnerability off; the ones not due stay pending |
| Health.HandleInvulnerabilityStep | Assets/Scripts/Health/HealthSystem.cs:214-221 | damage invulnerability ends on the first frame at or after the last hit plus its duration; on any other frame, or with no positive duration, nothing changes, and only that flag ever changes |
| Health.HandleRegenerationStep | Assets/Scripts/Health/HealthSystem.cs:226-235 | regeneration heals `rate * dt` only when enabled, alive, hurt and past the delay since the last hit; it keeps the invariant |
| Health.UpdateStep | Assets/Scripts/Health/HealthSystem.cs:54-58 | a frame keeps the invariant and never changes death, the maximum or whether damage is allowed |
| Health.ReviveStep | Assets/Scripts/Health/HealthSystem.cs:178-187 | a negative amount revives at full health, otherwise at the amount capped by the maximum; the character is alive and can be damaged again |
| Health.DeadIgnoresDamage | Assets/Scripts/Health/HealthSystem.cs:125-128 | once death has fired, any later hit is ignored (see also lines 196-199, 204-209) |
| Health.SecondHitInsideWindowIgnored | Assets/Scripts/Health/HealthSystem.cs:112-118 | after a landed hit, an `Update` before the invulnerability duration has passed keeps the character invulnerable and a second hit on that frame is ignored; an `Update` at or after it clears the flag |
| Health.RegenerationBounded | Assets/Scripts/Health/HealthSystem.cs:226-235 | any number of regeneration frames keeps health within [0, max] and never lowers it |
| Health.HealthSystem.constructor | Assets/Scripts/Health/HealthSystem.cs:15-36 | a new system has the inspector defaults |
| Health.HealthSystem.Initialize | Assets/Scripts/Health/HealthSystem.cs:42-48 | the fields change as `InitializeStep` says |
| Health.HealthSystem.Update | Assets/Scripts/Health/HealthSystem.cs:54-58 | the fields change as `UpdateStep` says |
| Health.HealthSystem.SetMaxHealth | Assets/Scripts/Health/HealthSystem.cs:65-81 | the fields change as `SetMaxHealthStep` says |
| Health.HealthSystem.RestoreHealth | Assets/Scripts/Health/HealthSystem.cs:83-95 | the fields change as `RestoreHealthStep` says |
| Health.HealthSystem.RestoreToFull | Assets/Scripts/Health/HealthSystem.cs:97-100 | the fields change as `RestoreToFullStep` says |
| Health.HealthSystem.TakeDamage | Assets/Scripts/Health/HealthSystem.cs:110-129 | the fields change, and the damage dealt and the death are reported, as `TakeDamageStep` says |
| Health.HealthSystem.SetCanTakeDamage | Assets/Scripts/Health/HealthSystem.cs:139-142 | only the damage switch changes |
| Health.HealthSystem.SetRegeneration | Assets/Scripts/Health/HealthSystem.cs:150-155 | only the three regeneration settings change |
| Health.HealthSystem.SetInvulnerable | Assets/Scripts/Health/HealthSystem.cs:162-172 | the fields change as `SetInvulnerableStep` says |
| Health.HealthSystem.ResumeInvulnerabilityCoroutines | Assets/Scripts/Health/HealthSystem.cs:240-244 | the fields change as `FireClearsStep` says |
| Health.HealthSystem.Revive | Assets/Scripts/Health/HealthSystem.cs:178-187 | the fields change as `ReviveStep` says |
| ComponentHealth.AwakeStep | Assets/Scripts/HealthComponent.cs:46-53 | an unset (non-positive) current health is filled to the maximum and any other value is kept, so a component with a positive maximum starts alive |
| ComponentHealth.UpdateStep | Assets/Scripts/HealthComponent.cs:55-62 | the invulnerability timer counts down by the frame time only while positive; nothing else changes |
| ComponentHealth.TakeDamageStep | Assets/Scripts/HealthComponent.cs:65-93 | damage is ignored when not positive, when dead or when invulnerable by flag or timer; otherwise health drops but never below 0, the timer restarts when a duration is configured, and death is reported exactly when health reaches 0 |
| ComponentHealth.HealStep | Assets/Scripts/HealthComponent.cs:97-107 | healing is ignored when dead or for a non-positive amount; otherwise health rises by the amount but never above the maximum, and the amount actually healed is reported |
| ComponentHealth.RestoreFullHealthStep | Assets/Scripts/HealthComponent.cs:109-122 | a living component returns to full health, and the heal is reported, with the missing amount, only if it was hurt |
| ComponentHealth.SetMaxHealthStep | Assets/Scripts/HealthComponent.cs:124-143 | a non-positive maximum is ignored; otherwise health keeps its ratio when asked and the old maximum was positive, or is only lowered to fit; the invariant is kept |
| ComponentHealth.ApplyTemporaryInvulnerabilityStep | Assets/Scripts/HealthComponent.cs:167-170 | the timer becomes the larger of what remains and the new duration, so remaining invulnerability is never shortened |
| ComponentHealth.SetCurrentHealthStep | Assets/Scripts/HealthComponent.cs:176-185 | the new value is clamped into [0, max], kept exactly when already in range, and death is reported exactly when the result is 0 |
| ComponentHealth.SecondHitIgnoredWhileTimerRuns | Assets/Scripts/HealthComponent.cs:73-77 | after a hit, a second hit less than the configured duration later is ignored (see also lines 90-93) |
| ComponentHealth.HealthComponent.constructor | Assets/Scripts/HealthComponent.cs:13-25 | a new component holds the serialised values and a stopped timer |
| ComponentHealth.HealthComponent.Awake | Assets/Scripts/HealthComponent.cs:46-53 | the fields change as `AwakeStep` says |
| ComponentHealth.HealthComponent.Update | Assets/Scripts/HealthComponent.cs:55-62 | the fields change as `UpdateStep` says |
| ComponentHealth.HealthComponent.TakeDamage | Assets/Scripts/HealthComponent.cs:65-88 | the fields change, and the damage dealt and the death are reported, as `TakeDamageStep` says |
| ComponentHealth.HealthComponent.Heal | Assets/Scripts/HealthComponent.cs:97-107 | the fields change as `HealStep` says |
| ComponentHealth.HealthComponent.RestoreFullHealth | Assets/Scripts/HealthComponent.cs:109-122 | the fields change as `RestoreFullHealthStep` says |
| ComponentHealth.HealthComponent.SetMaxHealth | Assets/Scripts/HealthComponent.cs:124-143 | the fields change as `SetMaxHealthStep` says |
| ComponentHealth.HealthComponent.SetInvulnerable | Assets/Scripts/HealthComponent.cs:158-161 | only the invulnerable flag changes |
| ComponentHealth.HealthComponent.ApplyTemporaryInvulnerability | Assets/Scripts/HealthComponent.cs:167-170 | the fields change as `ApplyTemporaryInvulnerabilityStep` says |
| ComponentHealth.HealthComponent.SetCurrentHealth | Assets/Scripts/HealthComponent.cs:176-185 | the fields change as `SetCurrentHealthStep` says |
| PlayerHealthInt.AwakeStep | Assets/Scripts/Player/Health/HealthSystem.cs:31-34 | `Awake` fills health to the maximum, so a positive maximum starts alive |
| PlayerHealthInt.UpdateStep | Assets/Scripts/Player/Health/HealthSystem.cs:36-46 | while invulnerable the timer runs down by the frame time and the flag clears exactly when it reaches 0; health is untouched |
| PlayerHealthInt.TakeDamageStep | Assets/Scripts/Player/Health/HealthSystem.cs:48-66 | a hit is ignored when dead or invulnerable; otherwise health drops by the damage, floored at 0; a negative damage that overflows the 32-bit difference kills; a lethal hit reports death and any other hit starts the invulnerability window (see also lines 90-94) |
| PlayerHealthInt.HealStep | Assets/Scripts/Player/Health/HealthSystem.cs:68-81 | healing is ignored when dead and never raises health above the maximum; a sum past 2^31 - 1 wraps to a negative health; the report says whether health changed |
| PlayerHealthInt.SetMaxHealthStep | Assets/Scripts/Player/Health/HealthSystem.cs:83-88 | the maximum is set as given (not checked) and health is lowered to it only when above it |
| PlayerHealthInt.RespawnStep | Assets/Scripts/Player/Health/HealthSystem.cs:102-108 | respawning restores full health and clears invulnerability and its timer |
| PlayerHealthInt.NegativeDamageExceedsMax | Assets/Scripts/Player/Health/HealthSystem.cs:53 | a negative damage value, which nothing rejects, raises health past the maximum |
| PlayerHealthInt.MostNegativeDamageKills | Assets/Scripts/Player/Health/HealthSystem.cs:53 | a damage of `int.MinValue` at full health of 100 overflows the difference, so health is floored to 0 and the player dies |
| PlayerHealthInt.HealOverflowLeavesNegativeHealth | Assets/Scripts/Player/Health/HealthSystem.cs:75 | healing a full player of 100 by `int.MaxValue` wraps health to -2147483549: the player counts as dead, yet `Die` never ran |
| PlayerHealthInt.SecondHitBlockedDuringWindow | Assets/Scripts/Player/Health/HealthSystem.cs:50-51 | after a non-lethal hit, a second hit within the invulnerability time is ignored (see also lines 62-65) |
| PlayerHealthInt.HealthSystem.constructor | Assets/Scripts/Player/Health/HealthSystem.cs:9-23 | a new component has the given maximum, zero health until `Awake`, and no invulnerability |
| PlayerHealthInt.HealthSystem.Awake | Assets/Scripts/Player/Health/HealthSystem.cs:31-34 | the fields change as `AwakeStep` says |
| PlayerHealthInt.HealthSystem.Update | Assets/Scripts/Player/Health/HealthSystem.cs:36-46 | the fields change as `UpdateStep` says |
| PlayerHealthInt.HealthSystem.TakeDamage | Assets/Scripts/Player/Health/HealthSystem.cs:48-66 | the fields change, and the landing and the death are reported, as `TakeDamageStep` says |
| PlayerHealthInt.HealthSystem.Heal | Assets/Scripts/Player/Health/HealthSystem.cs:68-81 | the fields change as `HealStep` says |
| PlayerHealthInt.HealthSystem.SetMaxHealth | Assets/Scripts/Player/Health/HealthSystem.cs:83-88 | the fields change as `SetMaxHealthStep` says |
| PlayerHealthInt.HealthSystem.Respawn | Assets/Scripts/Player/Health/HealthSystem.cs:102-108 | the fields change as `RespawnStep` says |
| BasicEnemyHealth.AwakeStep | Assets/Scripts/Enemy/BasicEnemy.cs:29-31 | `Awake` fills health to the maximum, and a non-negative maximum gives a state within bounds |
| BasicEnemyHealth.TakeDamageStep | Assets/Scripts/Enemy/BasicEnemy.cs:37-56 | a hit on a dead enemy is ignored; a negative amount counts as 0; health never drops below 0 nor rises, and `Die` runs exactly when this hit takes a living enemy to 0 |
| BasicEnemyHealth.HealStep | Assets/Scripts/Enemy/BasicEnemy.cs:58-64 | healing a dead enemy is ignored; a negative amount counts as 0; while the 32-bit sum fits, health never rises above the maximum and never falls; a sum past 2^31 - 1 wraps and leaves health negative |
| BasicEnemyHealth.HealOverflowKillsSilently | Assets/Scripts/Enemy/BasicEnemy.cs:63 | healing a full enemy of 50 by `int.MaxValue` wraps its health to -2147483599, so it is no longer alive although `Die` never ran |
| BasicEnemyHealth.RunKeepsBoundsAndDiesOnce | Assets/Scripts/Enemy/BasicEnemy.cs:37-64 | across any sequence of hits and heals in which no heal can carry health past 2^31 - 1, health stays within [0, max], and `Die` runs once if the enemy started alive and ended dead, never otherwise |
| BasicEnemyHealth.DeadStaysDead | Assets/Scripts/Enemy/BasicEnemy.cs:39 | once health is 0 every later hit and heal is ignored and `Die` does not run again (see also lines 60) |
| BasicEnemyHealth.BasicEnemy.constructor | Assets/Scripts/Enemy/BasicEnemy.cs:12-14 | a new enemy has the given maximum and zero health until `Awake` |
| BasicEnemyHealth.BasicEnemy.Awake | Assets/Scripts/Enemy/BasicEnemy.cs:29-31 | the fields change as `AwakeStep` says |
| BasicEnemyHealth.BasicEnemy.TakeDamage | Assets/Scripts/Enemy/BasicEnemy.cs:37-56 | the fields change, and the death is reported, as `TakeDamageStep` says |
| BasicEnemyHealth.BasicEnemy.Heal | Assets/Scripts/Enemy/BasicEnemy.cs:58-64 | the fields change as `HealStep` says |
| SimpleEnemyHealth.AwakeStep | Assets/Scripts/Enemy/EnemyHealth.cs:13-17 | `Awake` fills health to the maximum; `PlayerHealth.cs` repeats the same line (`PlayerIFrameHealth.AwakeStep`) |
| SimpleEnemyHealth.TakeDamageStep | Assets/Scripts/Enemy/EnemyHealth.cs:19-30 | health drops by exactly the amount (a negative amount raises it) while the 32-bit difference fits, and wraps by 2^32 when it does not; `Die` runs exactly when health is then at or below 0 |
| SimpleEnemyHealth.NonNegativeHitsNeverRaise | Assets/Scripts/Enemy/EnemyHealth.cs:19-22 | with non-negative hits whose total keeps health above -2^31, health never rises, so it never exceeds a maximum it started under |
| SimpleEnemyHealth.DieOnEveryLaterHit | Assets/Scripts/Enemy/EnemyHealth.cs:19-30 | nothing stops later hits: once health is at or below 0, every further non-negative hit calls `Die` again while the total keeps health above -2^31 |
| SimpleEnemyHealth.LateHitsWrapBackToLife | Assets/Scripts/Enemy/EnemyHealth.cs:22 | three hits of 10^9 on an enemy at 0 call `Die` twice; the third wraps health past -2^31 to 1294967296, so the enemy is alive again |
| SimpleEnemyHealth.EnemyHealth.constructor | Assets/Scripts/Enemy/EnemyHealth.cs:5-11 | a new enemy has the given maximum and zero health until `Awake` |
| SimpleEnemyHealth.EnemyHealth.Awake | Assets/Scripts/Enemy/EnemyHealth.cs:13-17 | the fields change as `AwakeStep` says |
| SimpleEnemyHealth.EnemyHealth.TakeDamage | Assets/Scripts/Enemy/EnemyHealth.cs:19-30 | the fields change, and the death is reported, as `TakeDamageStep` says |
| PlayerIFrameHealth.AwakeStep | Assets/Scripts/Player/PlayerHealth.cs:21-23 | `Awake` fills health to the maximum; the same line as `EnemyHealth.cs`, repeated in this file (`SimpleEnemyHealth.AwakeStep`) |
| PlayerIFrameHealth.TakeDamageStep | Assets/Scripts/Player/PlayerHealth.cs:37-48 | a hit while invincible is ignored; otherwise health drops by the amount in 32-bit arithmetic (exactly when the difference fits) and invincibility starts; a hit leaving health at or below 0 deactivates the player, whose pending end of invincibility never comes, and any other hit schedules its end `iFrameDuration` later (see also lines 55-57) |
| PlayerIFrameHealth.TickStep | Assets/Scripts/Player/PlayerHealth.cs:55-74 | a frame at or after the scheduled end clears invincibility; any other frame changes nothing; health is never touched |
| PlayerIFrameHealth.SecondHitWithinWindowIgnored | Assets/Scripts/Player/PlayerHealth.cs:39 | of two hits less than `iFrameDuration` apart only the first changes health (see also lines 57, 65) |
| PlayerIFrameHealth.HitAfterWindowLands | Assets/Scripts/Player/PlayerHealth.cs:65 | once `iFrameDuration` has passed after a non-lethal hit, the next hit lands again: health is the 32-bit result of taking both amounts, the exact difference when it fits (see also lines 73) |
| PlayerIFrameHealth.DeadPlayerIgnoresHits | Assets/Scripts/Player/PlayerHealth.cs:44-52 | after a lethal hit the flag stays set: no frame clears it and every later hit is ignored |
| PlayerIFrameHealth.PlayerHealth.constructor | Assets/Scripts/Player/PlayerHealth.cs:9-19 | a new player has the given maximum, zero health until `Awake`, and is active and not invincible |
| PlayerIFrameHealth.PlayerHealth.Awake | Assets/Scripts/Player/PlayerHealth.cs:21-23 | the fields change as `AwakeStep` says |
| PlayerIFrameHealth.PlayerHealth.TakeDamage | Assets/Scripts/Player/PlayerHealth.cs:37-48 | the fields change, and the death is reported, as `TakeDamageStep` says |
| PlayerIFrameHealth.PlayerHealth.Tick | Assets/Scripts/Player/PlayerHealth.cs:55-74 | the fields change as `TickStep` says |
| GroundPatrol.StartStep | Assets/Scripts/Enemy/PatrolScript.cs:24-28 | the first patrol target is point A, and a state not both chasing and idle then satisfies the patrol invariant |
| GroundPatrol.ClosestPatrolPoint | Assets/Scripts/Enemy/PatrolScript.cs:151-159 | the result is one of the two borders and no farther along x than either; an exact tie goes to point B; `EnemyAI.cs` repeats the same code, modelled there as `EnemyPatrolAI.ClosestPatrolPoint` |
| GroundPatrol.PatrolStep | Assets/Scripts/Enemy/PatrolScript.cs:55-86 | the aggro box starts a chase with the timer reset and no movement; otherwise the enemy moves towards the target; short of it nothing else changes, within 0.1 of a border it goes idle with the idle timer reset, and within 0.1 of a non-border target the target flips to the other border |
| GroundPatrol.ChaseX | Assets/Scripts/Enemy/PatrolScript.cs:117-124 | a chase step always lands inside the patrol span, and from inside the span it moves at most `chaseSpeed * dt` |
| GroundPatrol.ChaseStep | Assets/Scripts/Enemy/PatrolScript.cs:88-125 | leaving the chase box ends the chase towards the closer border; the aggro box resets the timer; otherwise the timer accrues by the frame time and reaching the timeout ends the chase with the target unchanged; a continuing chase changes only the position, clamped to the span, and the timer |
| GroundPatrol.IdleStep | Assets/Scripts/Enemy/PatrolScript.cs:127-149 | the aggro box resumes the chase; otherwise only the idle timer accrues while below `idleTime`, and reaching it returns to patrol towards the opposite border; the enemy does not move |
| GroundPatrol.UpdateStep | Assets/Scripts/Enemy/PatrolScript.cs:30-53 | a paused enemy changes nothing; otherwise exactly one of the chase, idle and patrol handlers runs, with the distances to the player, and the patrol invariant is kept |
| GroundPatrol.ReachingBorderAlwaysIdles | Assets/Scripts/Enemy/PatrolScript.cs:70-85 | because the target is always a border, reaching it always means idle: the switch-target branch never runs |
| GroundPatrol.ChaseHoldsInsideAggroBox | Assets/Scripts/Enemy/PatrolScript.cs:90-103 | when the chase box contains the aggro box, a chase that sees the player in the aggro box neither ends nor times out and its timer is 0 |
| GroundPatrol.PausedFramesChangeNothing | Assets/Scripts/Enemy/PatrolScript.cs:33-36 | any number of frames while paused leave the enemy exactly as it was (see also lines 187-188) |
| GroundPatrol.PatrolScript.constructor | Assets/Scripts/Enemy/PatrolScript.cs:17-22 | a new enemy stands at its start position, not chasing, idle or paused, with both timers 0 |
| GroundPatrol.PatrolScript.Start | Assets/Scripts/Enemy/PatrolScript.cs:24-28 | the fields change as `StartStep` says |
| GroundPatrol.PatrolScript.Update | Assets/Scripts/Enemy/PatrolScript.cs:30-53 | the fields change as `UpdateStep` says and the patrol invariant is kept |
| GroundPatrol.PatrolScript.Patrol | Assets/Scripts/Enemy/PatrolScript.cs:55-86 | the fields change as `PatrolStep` says |
| GroundPatrol.PatrolScript.ChasePlayer | Assets/Scripts/Enemy/PatrolScript.cs:88-125 | the fields change as `ChaseStep` says |
| GroundPatrol.PatrolScript.HandleIdleState | Assets/Scripts/Enemy/PatrolScript.cs:127-149 | the fields change as `IdleStep` says |
| GroundPatrol.PatrolScript.PauseAI | Assets/Scripts/Enemy/PatrolScript.cs:187 | only the pause flag changes, to set |
| GroundPatrol.PatrolScript.ResumeAI | Assets/Scripts/Enemy/PatrolScript.cs:188 | only the pause flag changes, to clear |
| FlyingPatrol.ClosestPatrolPoint | Assets/Scripts/Enemy/FlyingPatrol.cs:146-151 | point A exactly when it is strictly nearer than point B |
| FlyingPatrol.StartStep | Assets/Scripts/Enemy/FlyingPatrol.cs:26-33 | the target and the path-finding destination become point A |
| FlyingPatrol.PatrolStep | Assets/Scripts/Enemy/FlyingPatrol.cs:56-85 | the aggro box starts a chase aimed at the player with the chase timer reset and nothing else changed; otherwise the destination becomes the target, and within 0.2 of it the enemy goes idle, resets the idle timer and stops moving, every other field unchanged |
| FlyingPatrol.ChaseStep | Assets/Scripts/Enemy/FlyingPatrol.cs:87-120 | leaving the chase box, or a timeout outside the aggro box, ends the chase towards the closer patrol point with the timer reset; the aggro box resets the timer and keeps the player as destination; outside it the timer accrues by the frame time while the chase continues; nothing else changes |
| FlyingPatrol.IdleStep | Assets/Scripts/Enemy/FlyingPatrol.cs:122-144 | the aggro box resumes the chase and movement; otherwise the idle timer accrues, and the timeout flips the target, makes it the destination and lets the enemy move again, every other field unchanged |
| FlyingPatrol.UpdateStep | Assets/Scripts/Enemy/FlyingPatrol.cs:35-54 | a paused enemy changes nothing; otherwise exactly one handler runs, and the invariant is kept |
| FlyingPatrol.PauseStep | Assets/Scripts/Enemy/FlyingPatrol.cs:153-158 | pausing sets the flag and stops the path-finding agent, nothing else changes, and the invariant is kept |
| FlyingPatrol.ResumeStep | Assets/Scripts/Enemy/FlyingPatrol.cs:159-164 | resuming clears the flag and lets the agent move, whatever state it is in; nothing else changes |
| FlyingPatrol.TimeoutRetargetsClosest | Assets/Scripts/Enemy/FlyingPatrol.cs:106-114 | unlike the ground patrol, a chase timeout retargets the closer patrol point |
| FlyingPatrol.Run | Assets/Scripts/Enemy/FlyingPatrol.cs:35-54 | one `Update` per frame, in order; a paused enemy stays as it is |
| FlyingPatrol.NoAggroNoChase | Assets/Scripts/Enemy/FlyingPatrol.cs:56-62 | an enemy out of the chase whose aggro box stays empty never starts one and keeps heading for its patrol target, over any number of frames |
| FlyingPatrol.LingeringChaseTimesOut | Assets/Scripts/Enemy/FlyingPatrol.cs:100-115 | a player who stays inside the chase box but outside the aggro box ends the chase once the frame times add up to the chase timeout, and the enemy heads back to a patrol point |
| FlyingPatrol.ResumeWhileIdleMoves | Assets/Scripts/Enemy/FlyingPatrol.cs:75-77 | resuming from a pause taken while idle leaves the enemy idle yet free to move (see also lines 153-164) |
| FlyingPatrol.FlyingEnemyAI.constructor | Assets/Scripts/Enemy/FlyingPatrol.cs:16-33 | a started enemy targets point A, may move, and is neither chasing, idle nor paused |
| FlyingPatrol.FlyingEnemyAI.Update | Assets/Scripts/Enemy/FlyingPatrol.cs:35-54 | the fields change as `UpdateStep` says and the invariant is kept |
| FlyingPatrol.FlyingEnemyAI.Patrol | Assets/Scripts/Enemy/FlyingPatrol.cs:56-85 | the fields change as `PatrolStep` says |
| FlyingPatrol.FlyingEnemyAI.ChasePlayer | Assets/Scripts/Enemy/FlyingPatrol.cs:87-120 | the fields change as `ChaseStep` says: the timer resets in the aggro box and otherwise accrues until the timeout |
| FlyingPatrol.FlyingEnemyAI.HandleIdleState | Assets/Scripts/Enemy/FlyingPatrol.cs:122-144 | the fields change as `IdleStep` says |
| FlyingPatrol.FlyingEnemyAI.PauseAI | Assets/Scripts/Enemy/FlyingPatrol.cs:153-158 | the fields change as `PauseStep` says |
| FlyingPatrol.FlyingEnemyAI.ResumeAI | Assets/Scripts/Enemy/FlyingPatrol.cs:159-164 | the fields change as `ResumeStep` says |
| EnemyPatrolAI.ClosestPatrolPoint | Assets/Scripts/Enemy/EnemyAI.cs:110-118 | the result is one of the two points and no farther along x than either; an exact tie goes to point B; the same code as `PatrolScript.cs`, repeated in this file (`GroundPatrol.ClosestPatrolPoint`) |
| EnemyPatrolAI.IsPlayerInPatrolArea | Assets/Scripts/Enemy/EnemyAI.cs:120-126 | true exactly when the player's x lies within `chaseBoundaryRange` of point A or of point B |
| EnemyPatrolAI.StartStep | Assets/Scripts/Enemy/EnemyAI.cs:18-22 | the first patrol target is point A |
| EnemyPatrolAI.PatrolStep | Assets/Scripts/Enemy/EnemyAI.cs:42-66 | within `aggroRange` the chase starts without moving; otherwise the enemy moves towards the target at `patrolSpeed`, and within 0.1 of it the target flips to the other point, else stays; nothing else changes |
| EnemyPatrolAI.ChaseStep | Assets/Scripts/Enemy/EnemyAI.cs:68-85 | beyond `chaseBoundaryRange` the chase ends towards the closer point without moving; otherwise the enemy moves towards the player at `chaseSpeed` |
| EnemyPatrolAI.IdleStep | Assets/Scripts/Enemy/EnemyAI.cs:87-108 | the player near and in the patrol area resumes the chase; otherwise the idle timer accrues; below `idleTime` nothing else changes, and reaching it leaves idle towards the patrol point closest to the enemy |
| EnemyPatrolAI.UpdateStep | Assets/Scripts/Enemy/EnemyAI.cs:24-40 | exactly one of the chase, idle and patrol handlers runs, and a non-idle enemy never becomes idle |
| EnemyPatrolAI.NeverIdle | Assets/Scripts/Enemy/EnemyAI.cs:15 | nothing sets the idle flag, so from a non-idle start no sequence of frames ever reaches the idle handler (see also lines 32-35) |
| EnemyPatrolAI.ModeStableInBand | Assets/Scripts/Enemy/EnemyAI.cs:47 | between `aggroRange` (exclusive) and `chaseBoundaryRange` (inclusive) a frame never changes whether the enemy is chasing (see also lines 73) |
| EnemyPatrolAI.ModeSwitchesExactly | Assets/Scripts/Enemy/EnemyAI.cs:47-52 | a chase starts exactly when the distance is within `aggroRange` and ends exactly when it exceeds `chaseBoundaryRange` (see also lines 73-79) |
| EnemyPatrolAI.EnemyAI.constructor | Assets/Scripts/Enemy/EnemyAI.cs:13-16 | a new enemy stands at its start position, neither chasing nor idle, idle timer 0 |
| EnemyPatrolAI.EnemyAI.Start | Assets/Scripts/Enemy/EnemyAI.cs:18-22 | the fields change as `StartStep` says |
| EnemyPatrolAI.EnemyAI.Update | Assets/Scripts/Enemy/EnemyAI.cs:24-40 | the fields change as `UpdateStep` says |
| EnemyPatrolAI.EnemyAI.Patrol | Assets/Scripts/Enemy/EnemyAI.cs:42-66 | the fields change as `PatrolStep` says |
| EnemyPatrolAI.EnemyAI.ChasePlayer | Assets/Scripts/Enemy/EnemyAI.cs:68-85 | the fields change as `ChaseStep` says |
| EnemyPatrolAI.EnemyAI.HandleIdleState | Assets/Scripts/Enemy/EnemyAI.cs:87-108 | the fields change as `IdleStep` says |
| EnemyBase.Health | Assets/Scripts/Enemy/BaseEnemy.cs:38 | the component's health when one is attached, the fallback value otherwise |
| EnemyBase.DetectionStep | Assets/Scripts/Enemy/BaseEnemy.cs:133-153 | without a player nothing changes; otherwise the in-range flag follows `detectionRange`, aggro is entered exactly from non-aggro within `aggroRange` and left exactly from aggro beyond `deAggroRange`, and nothing else changes |
| EnemyBase.UpdateStep | Assets/Scripts/Enemy/BaseEnemy.cs:72-78 | a dead enemy changes nothing and its behaviour does not run; a living one runs detection and then its behaviour |
| EnemyBase.MovementRuns | Assets/Scripts/Enemy/BaseEnemy.cs:80-85 | the movement hook runs exactly while the enemy is alive |
| EnemyBase.OnDeathStep | Assets/Scripts/Enemy/BaseEnemy.cs:214-218 | the enemy is marked dead and nothing else changes |
| EnemyBase.TakeDamageStep | Assets/Scripts/Enemy/BaseEnemy.cs:185-202 | a dead enemy ignores hits; with a component the damage is passed on, the damage hook runs exactly when the component reports damage, and the enemy dies exactly when the component does; without one the fallback health drops, floored at 0, and the enemy dies exactly at 0; aggro and player are untouched and death is never undone |
| EnemyBase.DeadStaysDead | Assets/Scripts/Enemy/BaseEnemy.cs:74 | after `OnDeath` no sequence of frames and hits changes the enemy (see also lines 82, 187, 216) |
| EnemyBase.AggroStableBetweenRanges | Assets/Scripts/Enemy/BaseEnemy.cs:143-152 | a frame whose distance lies above `aggroRange` and within `deAggroRange` keeps the aggro flag as it was |
| EnemyBase.BaseEnemy.constructor | Assets/Scripts/Enemy/BaseEnemy.cs:60-64 | a new enemy holds the given fallback health and optional component, alive, not aggro and with no player found (see also lines 109-116) |
| EnemyBase.BaseEnemy.Start | Assets/Scripts/Enemy/BaseEnemy.cs:66-70 | only whether a player was found changes (see also lines 121-128) |
| EnemyBase.BaseEnemy.UpdatePlayerDetection | Assets/Scripts/Enemy/BaseEnemy.cs:133-153 | the fields change, and the aggro change is reported, as `DetectionStep` says |
| EnemyBase.BaseEnemy.Update | Assets/Scripts/Enemy/BaseEnemy.cs:72-78 | the fields change as `UpdateStep` says |
| EnemyBase.BaseEnemy.TakeDamage | Assets/Scripts/Enemy/BaseEnemy.cs:185-202 | the enemy and its component change as `TakeDamageStep` says |
| EnemyBase.BaseEnemy.OnDeath | Assets/Scripts/Enemy/BaseEnemy.cs:214-218 | the fields change as `OnDeathStep` says |
| EnemyController.FindTargetStep | Assets/Scripts/Enemy/BasicEnemyController.cs:149-165 | a player inside the detection circle becomes the target; with none, the target is dropped exactly when the retained distance exceeds 1.5 × `detectionRange` and kept otherwise; nothing else changes |
| EnemyController.PatrolStep | Assets/Scripts/Enemy/BasicEnemyController.cs:172-197 | while waiting the timer runs down, and its reaching 0 ends the wait and turns the enemy round; otherwise reaching `patrolDistance` from the start in the travel direction starts a wait of `waitTime` |
| EnemyController.FaceStep | Assets/Scripts/Enemy/BasicEnemyController.cs:199-225 | a chasing or guarding enemy turns towards its target; a guard without one turns towards a start more than 1 away; otherwise nothing changes |
| EnemyController.HandleBehaviorStep | Assets/Scripts/Enemy/BasicEnemyController.cs:124-138 | an idle enemy does nothing, a patrolling one runs `PatrolStep` and a chasing or guarding one `FaceStep`; no handler touches the target, the attack time or the death flag |
| EnemyController.CombatStep | Assets/Scripts/Enemy/BasicEnemyController.cs:300-311 | an attack is made exactly when there is a target within `attackRange` and the cooldown has passed, and only then is the attack time stamped (see also lines 385-397) |
| EnemyController.UpdateAIStep | Assets/Scripts/Enemy/BasicEnemyController.cs:118-144 | the frame is combat after the behaviour handler after target acquisition; the enemy has a target exactly when a player is in the circle or it kept one within 1.5 × `detectionRange`, and it attacks exactly when it then has a target within `attackRange` and may attack, stamping the time only then; behaviour type, death flag and health never change |
| EnemyController.UpdateStep | Assets/Scripts/Enemy/BasicEnemyController.cs:92-102 | a dead enemy does nothing; otherwise the health system ticks and the AI runs; an attack is stamped with the current time and comes at least `attackCooldown` after the previous one |
| EnemyController.HandleDeathStep | Assets/Scripts/Enemy/BasicEnemyController.cs:320-343 | the enemy is marked dead, a second call changes nothing, and nothing else changes |
| EnemyController.HandleDamageTakenStep | Assets/Scripts/Enemy/BasicEnemyController.cs:348-357 | an idle or patrolling enemy that is hurt starts chasing; a chasing or guarding one keeps its behaviour |
| EnemyController.TakeDamageStep | Assets/Scripts/Enemy/BasicEnemyController.cs:371-375 | a dead enemy ignores hits; otherwise the health system takes the hit, its damage event makes an idle or patrolling enemy chase, and the enemy dies exactly when the health system reports death |
| EnemyController.MoveSign | Assets/Scripts/Enemy/BasicEnemyController.cs:234-265 | the horizontal movement sign is -1, 0 or 1; a patroller stands still exactly while waiting; a chaser within 0.8 × `attackRange` and an idle enemy stand still |
| EnemyController.FixedUpdateStep | Assets/Scripts/Enemy/BasicEnemyController.cs:104-109 | a dead enemy does nothing; otherwise the enemy ends up facing any horizontal movement, and only the facing changes (see also lines 280-291) |
| EnemyController.AttacksRespectCooldown | Assets/Scripts/Enemy/BasicEnemyController.cs:306 | two attacks on successive frames are at least `attackCooldown` apart (see also lines 389, 396) |
| EnemyController.WaitThenTurn | Assets/Scripts/Enemy/BasicEnemyController.cs:174-196 | a patroller that reaches its distance starts waiting, and turns round exactly when the wait has run out |
| EnemyController.BasicEnemyController.constructor | Assets/Scripts/Enemy/BasicEnemyController.cs:68-90 | a new enemy has a fresh health system, the given behaviour, and starts alive, facing right and moving right |
| EnemyController.BasicEnemyController.Update | Assets/Scripts/Enemy/BasicEnemyController.cs:92-102 | the fields and the health system change as `UpdateStep` says |
| EnemyController.BasicEnemyController.UpdateAI | Assets/Scripts/Enemy/BasicEnemyController.cs:118-144 | the fields change as `UpdateAIStep` says |
| EnemyController.BasicEnemyController.FindPlayerTarget | Assets/Scripts/Enemy/BasicEnemyController.cs:149-165 | the fields change as `FindTargetStep` says |
| EnemyController.BasicEnemyController.FaceTarget | Assets/Scripts/Enemy/BasicEnemyController.cs:199-225 | the fields change as `FaceStep` says |
| EnemyController.BasicEnemyController.HandleCombat | Assets/Scripts/Enemy/BasicEnemyController.cs:300-311 | the fields change as `CombatStep` says |
| EnemyController.BasicEnemyController.HandlePatrolBehavior | Assets/Scripts/Enemy/BasicEnemyController.cs:172-197 | the fields change as `PatrolStep` says |
| EnemyController.BasicEnemyController.FixedUpdate | Assets/Scripts/Enemy/BasicEnemyController.cs:104-109 | the fields change as `FixedUpdateStep` says |
| EnemyController.BasicEnemyController.TakeDamage | Assets/Scripts/Enemy/BasicEnemyController.cs:371-375 | the fields and the health system change as `TakeDamageStep` says |
| EnemyController.BasicEnemyController.HandleDamageTaken | Assets/Scripts/Enemy/BasicEnemyController.cs:348-357 | the fields change as `HandleDamageTakenStep` says |
| EnemyController.BasicEnemyController.HandleDeath | Assets/Scripts/Enemy/BasicEnemyController.cs:320-343 | the fields change as `HandleDeathStep` says |
| EnemyController.BasicEnemyController.SetBehaviorType | Assets/Scripts/Enemy/BasicEnemyController.cs:414-417 | only the behaviour type changes, to the one given |
| MeleeEnemy.PatrolPointStep | Assets/Scripts/Enemy/BasicMeleeEnemy.cs:133-147 | within 0.5 of the current point the index moves to the next one, wrapping at the end; an index out of range or a missing point changes nothing; a valid index stays valid |
| MeleeEnemy.BehaviorStep | Assets/Scripts/Enemy/BasicMeleeEnemy.cs:77-128 | nothing unless alive; an aggro enemy chases and attacks exactly when a player is known, within `attackRange`, the cooldown has passed, attacks are enabled and the attack system accepts, stamping the time only then, and nothing else changes; otherwise it stops chasing and, with patrol enabled and points present, advances its patrol point as `PatrolPointStep` says (see also lines 204-211) |
| MeleeEnemy.UpdateStep | Assets/Scripts/Enemy/BaseEnemy.cs:72-78 | nothing unless alive; otherwise the base detection runs, leaving aggro clears the chasing flag (the override at BasicMeleeEnemy.cs:219-223), and the result is exactly `BehaviorStep` on that state; the chasing flag ends up equal to the aggro flag |
| MeleeEnemy.TakeDamageStep | Assets/Scripts/Enemy/BasicMeleeEnemy.cs:241-253 | the base enemy takes the hit as the base class says; aggro is then set exactly when it was set before or the damage hook ran for a hit from the player |
| MeleeEnemy.AdvanceWalks | Assets/Scripts/Enemy/BasicMeleeEnemy.cs:145 | arriving at points from index `i` walks up the indices and wraps to 0 on reaching the count |
| MeleeEnemy.AdvanceFullCycle | Assets/Scripts/Enemy/BasicMeleeEnemy.cs:145 | arriving at points as many times as there are points returns to the starting index: the points are visited in a cycle |
| MeleeEnemy.PlayerHitProvokes | Assets/Scripts/Enemy/BasicMeleeEnemy.cs:241-253 | a positive hit from the player that the health component accepts makes the enemy aggro; the fallback health path calls no damage hook and leaves aggro as it was |
| MeleeEnemy.BasicMeleeEnemy.constructor | Assets/Scripts/Enemy/BasicMeleeEnemy.cs:27-30 | a new melee enemy sits on its base, at patrol index 0, not chasing, with attack time 0 |
| MeleeEnemy.BasicMeleeEnemy.Update | Assets/Scripts/Enemy/BasicMeleeEnemy.cs:77-91 | the enemy and its base change as `UpdateStep` says |
| MeleeEnemy.BasicMeleeEnemy.UpdateBehavior | Assets/Scripts/Enemy/BasicMeleeEnemy.cs:77-91 | the fields change as `BehaviorStep` says |
| MeleeEnemy.BasicMeleeEnemy.UpdatePatrolPointMovement | Assets/Scripts/Enemy/BasicMeleeEnemy.cs:133-147 | the fields change as `PatrolPointStep` says |
| MeleeEnemy.BasicMeleeEnemy.TakeDamage | Assets/Scripts/Enemy/BasicMeleeEnemy.cs:241-253 | the enemy and its base change as `TakeDamageStep` says |
| PlayerMelee.ResetCooldownStep | Assets/Scripts/Player/Combat/MeleeAttackSystem.cs:34-39 | the cooldown is cleared and an attack in progress is left alone, so an idle system can attack again (see also lines 148-151) |
| PlayerMelee.UpdateStep | Assets/Scripts/Player/Combat/MeleeAttackSystem.cs:41-54 | the cooldown counts down only while positive; an attack in progress counts down and ends exactly on the frame its timer reaches 0 |
| PlayerMelee.TryAttackStep | Assets/Scripts/Player/Combat/MeleeAttackSystem.cs:30 | an attack starts exactly when `CanAttack` holds, setting both timers, after which no attack can start; otherwise nothing changes (see also lines 56-75) |
| PlayerMelee.Damaged | Assets/Scripts/Player/Combat/MeleeAttackSystem.cs:77-94 | exactly the colliders hit that carry a health system take damage |
| PlayerMelee.DamagedKeepsQueryOrder | Assets/Scripts/Player/Combat/MeleeAttackSystem.cs:77-94 | the damaged colliders come in query order: filtering a concatenation filters each part in turn |
| PlayerMelee.DamagedOne | Assets/Scripts/Player/Combat/MeleeAttackSystem.cs:77-94 | a single collider hit is damaged exactly when it carries a health system |
| PlayerMelee.CooldownCountsDown | Assets/Scripts/Player/Combat/MeleeAttackSystem.cs:43-44 | while less time than the remaining cooldown has passed, the cooldown has exactly that much less left |
| PlayerMelee.NoAttackWithinCooldown | Assets/Scripts/Player/Combat/MeleeAttackSystem.cs:30 | after an attack starts, no second attack is accepted until `attackCooldown` has elapsed (see also lines 43-44, 69) |
| PlayerMelee.MeleeAttackSystem.constructor | Assets/Scripts/Player/Combat/MeleeAttackSystem.cs:23-25 | a new system has no cooldown, no attack and a zero attack timer |
| PlayerMelee.MeleeAttackSystem.Initialize | Assets/Scripts/Player/Combat/MeleeAttackSystem.cs:34-39 | the fields change as `ResetCooldownStep` says |
| PlayerMelee.MeleeAttackSystem.ResetCooldown | Assets/Scripts/Player/Combat/MeleeAttackSystem.cs:148-151 | the fields change as `ResetCooldownStep` says |
| PlayerMelee.MeleeAttackSystem.Update | Assets/Scripts/Player/Combat/MeleeAttackSystem.cs:41-54 | the fields change as `UpdateStep` says |
| PlayerMelee.MeleeAttackSystem.TryAttack | Assets/Scripts/Player/Combat/MeleeAttackSystem.cs:56-75 | the fields change as `TryAttackStep` says, and the colliders damaged are `Damaged`'s when the attack started, none otherwise |
| PlayerMelee.MeleeAttackSystem.PerformAttack | Assets/Scripts/Player/Combat/MeleeAttackSystem.cs:77-102 | the loop damages exactly `Damaged`'s colliders, in order |
| PlayerMeleeAttack.OnAttackStep | Assets/Scripts/Player/Combat/MeleeAttack.cs:158-164 | a press in the started phase latches the input; nothing else changes |
| PlayerMeleeAttack.AttackStep | Assets/Scripts/Player/Combat/MeleeAttack.cs:76-81 | nothing happens unless `CanAttack`; otherwise the attack flag is set, the start time stamped, `OnAttackStart` raised and the hit check scheduled 0.3 × `attackDuration` later (see also lines 83-97) |
| PlayerMeleeAttack.UpdateStep | Assets/Scripts/Player/Combat/MeleeAttack.cs:62-74 | a latched press starts an attack exactly when `CanAttack` holds, and only then is the latch cleared; a press made while blocked stays buffered |
| PlayerMeleeAttack.Struck | Assets/Scripts/Player/Combat/MeleeAttack.cs:123-128 | exactly the returned objects other than the attacker itself |
| PlayerMeleeAttack.StruckKeepsQueryOrder | Assets/Scripts/Player/Combat/MeleeAttack.cs:123-128 | the struck objects come in query order: filtering a concatenation filters each part in turn |
| PlayerMeleeAttack.StruckOne | Assets/Scripts/Player/Combat/MeleeAttack.cs:123-128 | a single returned object is struck exactly when it is not the attacker |
| PlayerMeleeAttack.Damaged | Assets/Scripts/Player/Combat/MeleeAttack.cs:131-135 | exactly the struck objects that have a damageable component |
| PlayerMeleeAttack.DamagedKeepsQueryOrder | Assets/Scripts/Player/Combat/MeleeAttack.cs:131-135 | the damaged objects keep the order of the struck ones: filtering a concatenation filters each part in turn |
| PlayerMeleeAttack.DamagedOne | Assets/Scripts/Player/Combat/MeleeAttack.cs:131-135 | a single struck object is damaged exactly when it has a damageable component |
| PlayerMeleeAttack.ResumeStep | Assets/Scripts/Player/Combat/MeleeAttack.cs:97-107 | before its wait is over the coroutine does nothing; at the end of the wind-up it does the one hit check, raising `OnAttackHit` exactly when something other than the attacker was found, and waits 0.7 × `attackDuration`; at the end it clears the flag and raises `OnAttackEnd` (see also lines 109-150) |
| PlayerMeleeAttack.OneHitCheckPerAttack | Assets/Scripts/Player/Combat/MeleeAttack.cs:83-107 | one attack sequence does at most one hit check, whatever frames follow, and an idle component stays idle |
| PlayerMeleeAttack.HitCheckWaitsForWindUp | Assets/Scripts/Player/Combat/MeleeAttack.cs:97-100 | no hit check happens on a frame earlier than 0.3 × `attackDuration` after the attack started |
| PlayerMeleeAttack.NeverHitsSelf | Assets/Scripts/Player/Combat/MeleeAttack.cs:126 | the attacker never damages itself |
| PlayerMeleeAttack.MeleeAttack.constructor | Assets/Scripts/Player/Combat/MeleeAttack.cs:39-41 | a new component is not attacking, has no latched press, and has last attacked at -1 |
| PlayerMeleeAttack.MeleeAttack.OnAttack | Assets/Scripts/Player/Combat/MeleeAttack.cs:158-164 | the fields change as `OnAttackStep` says |
| PlayerMeleeAttack.MeleeAttack.Update | Assets/Scripts/Player/Combat/MeleeAttack.cs:62-74 | the fields change, and the events are raised, as `UpdateStep` says |
| PlayerMeleeAttack.MeleeAttack.Attack | Assets/Scripts/Player/Combat/MeleeAttack.cs:76-81 | the fields change, and the events are raised, as `AttackStep` says |
| PlayerMeleeAttack.MeleeAttack.Resume | Assets/Scripts/Player/Combat/MeleeAttack.cs:83-107 | the fields change, the events are raised and the objects are damaged as `ResumeStep` says |
| PlayerMeleeAttack.MeleeAttack.PerformAttack | Assets/Scripts/Player/Combat/MeleeAttack.cs:109-150 | the loop reports a hit exactly when something other than the attacker was found, and damages exactly the damageable ones among them |
| PlayerMeleeAttack.StruckStep | Assets/Scripts/Player/Combat/MeleeAttack.cs:123-128 | one pass of the loop: skipping the attacker changes nothing, any other object counts as a hit |
| CombatDirection.AttackDirection | Assets/Scripts/Player/PlayerCombatController.cs:102-138 | with movement-direction mode and an input handler, up when allowed and y reaches its threshold, else down when allowed, y reaches its threshold and the player is airborne, else the sign of x beyond 0.1, else the facing; without them, the facing |
| CombatDirection.NoDownwardAttackOnGround | Assets/Scripts/Player/PlayerCombatController.cs:115 | a grounded player never attacks downwards |
| CombatDirection.FacingWithoutInput | Assets/Scripts/Player/PlayerCombatController.cs:130-134 | without an input handler, or with the mode off, the attack goes left or right as the player faces |
| CombatDirection.PlayerCombatController.constructor | Assets/Scripts/Player/PlayerCombatController.cs:30 | a new controller has a fresh, initialised attack system and last attacked to the right (see also lines 34-44) |
| CombatDirection.PlayerCombatController.Update | Assets/Scripts/Player/PlayerCombatController.cs:51-54 | the attack system changes as its update says |
| CombatDirection.PlayerCombatController.GetAttackDirection | Assets/Scripts/Player/PlayerCombatController.cs:102-138 | the direction is `AttackDirection`'s and is remembered as the last one |
| CombatDirection.PlayerCombatController.Attack | Assets/Scripts/Player/PlayerCombatController.cs:184-199 | nothing happens when the player is dead, dashing or the system cannot attack; otherwise the attack system attacks |
| CombatDirection.PlayerCombatController.HandleAttackInput | Assets/Scripts/Player/PlayerCombatController.cs:88-92 | the attack-started input picks `AttackDirection`'s direction, remembers it, and attacks as `Attack` says |
| CombatDirection.PlayerCombatController.ResetCombo | Assets/Scripts/Player/PlayerCombatController.cs:220-223 | the attack system's combo is reset |
| Dash.RemainingDashes | Assets/Scripts/Player/Movement/DashSystem.cs:30 | never negative; exactly the dashes left while the counter is within bounds; positive exactly when the counter is below `maxDashes` |
| Dash.CooldownProgress | Assets/Scripts/Player/Movement/DashSystem.cs:31 | within [0, 1] while the cooldown timer is within [0, `dashCooldown`]: 1 when it is over and 0 right after a dash |
| Dash.InitializeStep | Assets/Scripts/Player/Movement/DashSystem.cs:33-39 | the body's gravity is remembered, no dashes are used and there is no cooldown |
| Dash.EndDashStep | Assets/Scripts/Player/Movement/DashSystem.cs:119-132 | the dash flag clears and gravity is restored exactly when the configuration switched it off; counters and timers are untouched |
| Dash.UpdateStep | Assets/Scripts/Player/Movement/DashSystem.cs:41-72 | the cooldown counts down only while positive, the dash timer only while dashing, a dash ends exactly on the update that takes its timer to 0 or below, and the dash invariant is kept |
| Dash.DashDirection | Assets/Scripts/Player/Movement/DashSystem.cs:86-96 | the input direction when its length exceeds 0.1, else the facing direction |
| Dash.TryDashStep | Assets/Scripts/Player/Movement/DashSystem.cs:29 | a dash starts exactly when `CanDash` holds: dashing for `dashDuration`, one dash used, the cooldown started, gravity off when configured; otherwise nothing changes (see also lines 74-117) |
| Dash.ResetDashesStep | Assets/Scripts/Player/Movement/DashSystem.cs:144-148 | every dash is available again and the cooldown is cleared; nothing else changes |
| Dash.OnGroundedChangedStep | Assets/Scripts/Player/Movement/DashSystem.cs:134-142 | only a landing edge resets the dashes; the grounded flag is always remembered |
| Dash.ForceCancelDashStep | Assets/Scripts/Player/Movement/DashSystem.cs:150-156 | a dash in progress ends as `EndDash` says; otherwise nothing changes |
| Dash.AirDashesBounded | Assets/Scripts/Player/Movement/DashSystem.cs:29 | without a landing, every dash started uses one up, so no more dashes start than remained at the outset, whatever the frames, cancels and inputs (see also lines 103, 134-148) |
| Dash.DashSystem.constructor | Assets/Scripts/Player/Movement/DashSystem.cs:19-28 | a new system has no dashes used, no timers running and the body's gravity |
| Dash.DashSystem.Initialize | Assets/Scripts/Player/Movement/DashSystem.cs:33-39 | the fields change as `InitializeStep` says |
| Dash.DashSystem.Update | Assets/Scripts/Player/Movement/DashSystem.cs:41-72 | the fields change as `UpdateStep` says |
| Dash.DashSystem.TryDash | Assets/Scripts/Player/Movement/DashSystem.cs:74-117 | the fields change as `TryDashStep` says |
| Dash.DashSystem.EndDash | Assets/Scripts/Player/Movement/DashSystem.cs:119-132 | the fields change as `EndDashStep` says |
| Dash.DashSystem.OnGroundedChanged | Assets/Scripts/Player/Movement/DashSystem.cs:134-142 | the fields change as `OnGroundedChangedStep` says |
| Dash.DashSystem.ResetDashes | Assets/Scripts/Player/Movement/DashSystem.cs:144-148 | the fields change as `ResetDashesStep` says |
| Dash.DashSystem.ForceCancelDash | Assets/Scripts/Player/Movement/DashSystem.cs:150-156 | the fields change as `ForceCancelDashStep` says |
| DoubleJump.RemainingJumps | Assets/Scripts/Player/Movement/DoubleJumpSystem.cs:29 | never negative; exactly the jumps left while the counter is within bounds; positive exactly when the counter is below `maxJumps` |
| DoubleJump.CorrectionOnlyBlocksOverBudgetCoyote | Assets/Scripts/Player/Movement/DoubleJumpSystem.cs:28 | with at least one jump configured, the corrected gate refuses exactly the coyote-time jumps the written gate lets past the budget |
| DoubleJump.InitializeStep | Assets/Scripts/Player/Movement/DoubleJumpSystem.cs:31-36 | no jumps are used; nothing else changes |
| DoubleJump.CheckGroundedStep | Assets/Scripts/Player/Movement/DoubleJumpSystem.cs:44-61 | a landing edge resets the counter, a leaving edge starts coyote time, the grounded flags follow the ground check, and the invariant is kept |
| DoubleJump.UpdateTimersStep | Assets/Scripts/Player/Movement/DoubleJumpSystem.cs:63-70 | the coyote and buffer timers each count down only while positive; nothing else changes |
| DoubleJump.UpdateStep | Assets/Scripts/Player/Movement/DoubleJumpSystem.cs:38-42 | the ground check runs, then the timers, and the invariant is kept |
| DoubleJump.RequestJumpStep | Assets/Scripts/Player/Movement/DoubleJumpSystem.cs:72-75 | the jump buffer is refilled; nothing else changes |
| DoubleJump.ResetJumpsStep | Assets/Scripts/Player/Movement/DoubleJumpSystem.cs:106-109 | the counter is cleared; nothing else changes |
| DoubleJump.TryJumpWith | Assets/Scripts/Player/Movement/DoubleJumpSystem.cs:77-104 | without a buffered request nothing happens; a buffered request jumps exactly when the gate is open, with the ground force for the first jump and the double-jump force after, using up one jump, ending coyote time and emptying the buffer; a blocked request stays buffered |
| DoubleJump.TryJumpAsWrittenStep | Assets/Scripts/Player/Movement/DoubleJumpSystem.cs:28 | a jump happens exactly when a request is buffered and the gate as written is open, and it adds one to the counter (see also lines 77-90) |
| DoubleJump.TryJumpStep | Assets/Scripts/Player/Movement/DoubleJumpSystem.cs:28 | a jump happens exactly when a request is buffered and a jump remains; it uses one up, and a refused request changes nothing (see also lines 77-90) |
| DoubleJump.CoyoteJumpExceedsMaxJumps | Assets/Scripts/Player/Movement/DoubleJumpSystem.cs:28 | with one jump allowed, jumping from the ground and jumping again in coyote time takes the counter to 2 (see also lines 54-58, 100) |
| DoubleJump.CoyoteJumpRefusedWhenSpent | Assets/Scripts/Player/Movement/DoubleJumpSystem.cs:28 | the same frames with the corrected gate refuse the second jump (see also lines 54-58) |
| DoubleJump.AirJumpsBounded | Assets/Scripts/Player/Movement/DoubleJumpSystem.cs:28 | between landings every jump uses one up, so no more jumps happen than remained, coyote time or not (see also lines 77-104) |
| DoubleJump.DoubleJumpSystem.constructor | Assets/Scripts/Player/Movement/DoubleJumpSystem.cs:19-27 | a new system has no jumps used, no timers running, and is not grounded |
| DoubleJump.DoubleJumpSystem.Initialize | Assets/Scripts/Player/Movement/DoubleJumpSystem.cs:31-36 | the fields change as `InitializeStep` says |
| DoubleJump.DoubleJumpSystem.Update | Assets/Scripts/Player/Movement/DoubleJumpSystem.cs:38-70 | the fields change as `UpdateStep` says |
| DoubleJump.DoubleJumpSystem.RequestJump | Assets/Scripts/Player/Movement/DoubleJumpSystem.cs:72-75 | the fields change as `RequestJumpStep` says |
| DoubleJump.DoubleJumpSystem.TryJump | Assets/Scripts/Player/Movement/DoubleJumpSystem.cs:77-104 | the fields change, and the impulse is reported, as `TryJumpStep` says: the class runs the corrected gate, not the gate as written, which `TryJumpAsWrittenStep` models (see Findings) |
| DoubleJump.DoubleJumpSystem.ResetJumps | Assets/Scripts/Player/Movement/DoubleJumpSystem.cs:106-109 | the fields change as `ResetJumpsStep` says |
| PlatformerController.JumpPressedStep | Assets/Scripts/Player/PlayerController.cs:215-220 | a jump press is latched, held, and buffered for `jumpBufferTime`; nothing else changes |
| PlatformerController.HandleTimersStep | Assets/Scripts/Player/PlayerController.cs:315-330 | a leaving edge seen by the previous ground check starts coyote time, otherwise coyote time runs down while positive; the jump buffer and the dash timer run down while positive; nothing else changes |
| PlatformerController.CheckGroundedStep | Assets/Scripts/Player/PlayerController.cs:251-263 | the ground flags shift and follow the ground check, and a landing edge restores every air jump and air dash and starts coyote time; the invariant is kept |
| PlatformerController.CheckWallStep | Assets/Scripts/Player/PlayerController.cs:265-273 | touching a wall counts exactly while airborne and the wall is on the facing side; nothing else changes |
| PlatformerController.JumpStep | Assets/Scripts/Player/PlayerController.cs:389-403 | a jump happens exactly when `CanJump` holds: a ground or coyote jump sets the upward speed to `jumpForce` and ends coyote time without using an air jump; otherwise an air jump sets it to `doubleJumpForce` and uses one up; the air-jump bound is kept (see also lines 423-427) |
| PlatformerController.HandleJumpInputStep | Assets/Scripts/Player/PlayerController.cs:332-341 | a buffered press jumps exactly when `CanJump` holds, and then the buffer is emptied; a blocked press stays buffered; the press latch is cleared every frame |
| PlatformerController.UpdateStep | Assets/Scripts/Player/PlayerController.cs:128-135 | one frame runs the timers, the ground check, the wall check and the buffered jump in that order, and keeps the invariant |
| PlatformerController.DashStep | Assets/Scripts/Player/PlayerController.cs:405-419 | nothing happens unless `CanDash`; otherwise the dash starts for `dashDuration` stamped with `now`, an airborne dash uses an air dash and, when so configured, gives back every air jump; the invariant is kept (see also lines 429-434) |
| PlatformerController.DashDirection | Assets/Scripts/Player/PlayerController.cs:231-232 | the movement input when longer than 0.1, else right or left as the player faces |
| PlatformerController.HandleDashStep | Assets/Scripts/Player/PlayerController.cs:366-378 | a spent dash timer ends the dash and restores gravity scale 1; otherwise the dash drives the body at `dashForce` along its direction with gravity off |
| PlatformerController.MovementForce | Assets/Scripts/Player/PlayerController.cs:279-292 | with positive rates the horizontal force always pushes towards the target speed: positive exactly when the body is slower, negative exactly when faster |
| PlatformerController.FaceInput | Assets/Scripts/Player/PlayerController.cs:295-296 | the player turns towards a non-zero horizontal input and otherwise keeps its facing (see also lines 305-309) |
| PlatformerController.HandleMovementStep | Assets/Scripts/Player/PlayerController.cs:279-303 | the player faces the input, and a wall slide caps the fall speed at `wallSlideSpeed`; nothing else changes |
| PlatformerController.HandleGravityStep | Assets/Scripts/Player/PlayerController.cs:343-360 | gravity is `fallGravityMultiplier` while falling or rising with the button released, 1 otherwise, and the fall speed is capped at `maxFallSpeed` |
| PlatformerController.FixedUpdateStep | Assets/Scripts/Player/PlayerController.cs:137-148 | the dash alone runs while dashing; otherwise movement, with its force, and gravity; jumps and contacts are untouched |
| PlatformerController.SetFacingStep | Assets/Scripts/Player/PlayerController.cs:483-487 | the player ends up facing as requested and flips only when that differs |
| PlatformerController.AirJumpsBounded | Assets/Scripts/Player/PlayerController.cs:397-401 | while airborne, unless dashes give air jumps back, every air jump uses one up, so no more happen than `maxAirJumps` allows, whatever the frames, presses and dashes (see also lines 417-418, 423-427) |
| PlatformerController.NoDashWithinCooldown | Assets/Scripts/Player/PlayerController.cs:412 | a dash started at `t` makes every dash request before `t + dashCooldown` do nothing (see also lines 432) |
| PlatformerController.PlayerController.constructor | Assets/Scripts/Player/PlayerController.cs:89-121 | a new controller has a fresh, initialised health system, gravity scale 1, faces right and has used no jumps or dashes |
| PlatformerController.PlayerController.Move | Assets/Scripts/Player/PlayerController.cs:384-387 | only the movement input changes |
| PlatformerController.PlayerController.HandleJumpPressed | Assets/Scripts/Player/PlayerController.cs:215-220 | the fields change as `JumpPressedStep` says |
| PlatformerController.PlayerController.HandleJumpReleased | Assets/Scripts/Player/PlayerController.cs:222-225 | only the jump-held flag clears |
| PlatformerController.PlayerController.SetSprinting | Assets/Scripts/Player/PlayerController.cs:237-245 | only the sprint flag changes, to the value given |
| PlatformerController.PlayerController.Update | Assets/Scripts/Player/PlayerController.cs:128-135 | the health system ticks and the fields change as `UpdateStep` says |
| PlatformerController.PlayerController.HandleTimers | Assets/Scripts/Player/PlayerController.cs:315-330 | the fields change as `HandleTimersStep` says |
| PlatformerController.PlayerController.CheckGroundedState | Assets/Scripts/Player/PlayerController.cs:251-263 | the fields change as `CheckGroundedStep` says |
| PlatformerController.PlayerController.CheckWallState | Assets/Scripts/Player/PlayerController.cs:265-273 | the fields change as `CheckWallStep` says |
| PlatformerController.PlayerController.HandleJumpInput | Assets/Scripts/Player/PlayerController.cs:332-341 | the fields change as `HandleJumpInputStep` says |
| PlatformerController.PlayerController.Jump | Assets/Scripts/Player/PlayerController.cs:389-403 | the fields change as `JumpStep` says |
| PlatformerController.PlayerController.HandleDashPressed | Assets/Scripts/Player/PlayerController.cs:227-235 | the fields change as `DashStep` says, in `DashDirection`'s direction |
| PlatformerController.PlayerController.Dash | Assets/Scripts/Player/PlayerController.cs:405-419 | the fields change as `DashStep` says |
| PlatformerController.PlayerController.FixedUpdate | Assets/Scripts/Player/PlayerController.cs:137-148 | the fields change, and the force is reported, as `FixedUpdateStep` says |
| PlatformerController.PlayerController.HandleDash | Assets/Scripts/Player/PlayerController.cs:366-378 | the fields change as `HandleDashStep` says |
| PlatformerController.PlayerController.HandleMovement | Assets/Scripts/Player/PlayerController.cs:279-303 | the fields change as `HandleMovementStep` says |
| PlatformerController.PlayerController.HandleGravity | Assets/Scripts/Player/PlayerController.cs:343-360 | the fields change as `HandleGravityStep` says |
| PlatformerController.PlayerController.SetFacing | Assets/Scripts/Player/PlayerController.cs:483-487 | the fields change as `SetFacingStep` says |
| PlatformerController.PlayerController.TakeDamage | Assets/Scripts/Player/PlayerController.cs:447-450 | the health system takes the hit as its own `TakeDamage` says |
| Controller2D.OnMoveStep | Assets/Scripts/Player/Movement/PlayerController2D.cs:236-249 | the input is stored; the sprite turns right above 0.1, left below -0.1, and otherwise keeps its facing; nothing else changes |
| Controller2D.OnJumpStep | Assets/Scripts/Player/Movement/PlayerController2D.cs:251-261 | a started press latches a jump press, otherwise a cancel latches a release, otherwise nothing changes; only the latches change |
| Controller2D.OnDashStep | Assets/Scripts/Player/Movement/PlayerController2D.cs:263-269 | a started press latches a dash press, and only that latch can change |
| Controller2D.GroundStep | Assets/Scripts/Player/Movement/PlayerController2D.cs:100-119 | the grounded flag follows the check, and the jump counter resets exactly on a landing or when grounded and not rising faster than 0.1 |
| Controller2D.DashDirection | Assets/Scripts/Player/Movement/PlayerController2D.cs:186-194 | the movement input when longer than 0.1, else left or right as the sprite faces |
| Controller2D.StartDashStep | Assets/Scripts/Player/Movement/PlayerController2D.cs:161-167 | a latched press with `CanDash` starts a dash for `dashDuration` stamped with `now`, stops the body and reports the dash impulse, and only then clears the latch; otherwise nothing changes (see also lines 179-199, 62) |
| Controller2D.DashTimerStep | Assets/Scripts/Player/Movement/PlayerController2D.cs:169-176 | a dash counts down by `dt` and ends on the frame its timer reaches 0, halving the velocity and marking that a dash happened; no dash, no change (see also lines 207-214) |
| Controller2D.HandleDashStep | Assets/Scripts/Player/Movement/PlayerController2D.cs:161-177 | the dash timer runs on the state the dash start leaves, so a dash started this frame already counts down; jumps and ground are untouched |
| Controller2D.UpdateStep | Assets/Scripts/Player/Movement/PlayerController2D.cs:79-84 | one frame is the ground check then the dash handling, and keeps the invariant |
| Controller2D.MovementForce | Assets/Scripts/Player/Movement/PlayerController2D.cs:121-140 | with positive rates the horizontal force always pushes towards the target speed: positive exactly when the body is slower, negative exactly when faster |
| Controller2D.JumpPressStep | Assets/Scripts/Player/Movement/PlayerController2D.cs:144-151 | a latched press jumps exactly while `jumpCount < maxJumps`: vertical motion stops, the jump impulse is reported, the counter goes up by one and the latch clears; the counter stays within `maxJumps` |
| Controller2D.JumpCutStep | Assets/Scripts/Player/Movement/PlayerController2D.cs:154-158 | a latched release while rising multiplies the upward speed by `jumpCutMultiplier` and clears that latch; otherwise nothing changes |
| Controller2D.HandleJumpStep | Assets/Scripts/Player/Movement/PlayerController2D.cs:142-159 | an impulse is reported exactly when a press is latched and `jumpCount < maxJumps`, and the counter goes up by exactly the jumps made |
| Controller2D.AdjustGravityStep | Assets/Scripts/Player/Movement/PlayerController2D.cs:216-233 | gravity is `fallGravityMultiplier` while falling, `lowJumpGravityMultiplier` while rising without a latched press, 1 otherwise; nothing else changes |
| Controller2D.FixedUpdateStep | Assets/Scripts/Player/Movement/PlayerController2D.cs:86-98 | while dashing the body moves at `dashForce` along the dash direction and nothing else runs; otherwise movement, jump and gravity run; the invariant is kept (see also lines 201-205) |
| Controller2D.AirFrame | Assets/Scripts/Player/Movement/PlayerController2D.cs:79-98 | an airborne frame stays airborne, and the counter goes up by one when it jumps and is unchanged otherwise (see also lines 251-261) |
| Controller2D.AirJumpsBounded | Assets/Scripts/Player/Movement/PlayerController2D.cs:24 | between landings every jump counts once, so no more jumps happen than `maxJumps` allows, whatever the presses, releases and dashes (see also lines 100-119, 144-151) |
| Controller2D.NoDashWithinCooldown | Assets/Scripts/Player/Movement/PlayerController2D.cs:62 | a dash started at `t` makes every dash before `t + dashCooldown` impossible (see also lines 161-167, 183) |
| Controller2D.PlayerController2D.constructor | Assets/Scripts/Player/Movement/PlayerController2D.cs:38-56 | a new controller has no input, no latches, no jumps used, is not dashing and has `lastDashTime = -1` (see also lines 64-77) |
| Controller2D.PlayerController2D.OnMove | Assets/Scripts/Player/Movement/PlayerController2D.cs:236-249 | the fields change as `OnMoveStep` says |
| Controller2D.PlayerController2D.OnJump | Assets/Scripts/Player/Movement/PlayerController2D.cs:251-261 | the fields change as `OnJumpStep` says |
| Controller2D.PlayerController2D.OnDash | Assets/Scripts/Player/Movement/PlayerController2D.cs:263-269 | the fields change as `OnDashStep` says |
| Controller2D.PlayerController2D.Move | Assets/Scripts/Player/Movement/PlayerController2D.cs:272-280 | only the movement input changes, to the direction given (zero for `StopMovement`) |
| Controller2D.PlayerController2D.Update | Assets/Scripts/Player/Movement/PlayerController2D.cs:79-84 | the fields change, and the velocity and impulse are reported, as `UpdateStep` says |
| Controller2D.PlayerController2D.HandleDash | Assets/Scripts/Player/Movement/PlayerController2D.cs:161-177 | the fields change as `HandleDashStep` says |
| Controller2D.PlayerController2D.StartDash | Assets/Scripts/Player/Movement/PlayerController2D.cs:179-199 | the fields change as `StartDashStep` says |
| Controller2D.PlayerController2D.DashTimer | Assets/Scripts/Player/Movement/PlayerController2D.cs:169-176 | the fields change as `DashTimerStep` says (see also lines 207-214) |
| Controller2D.PlayerController2D.FixedUpdate | Assets/Scripts/Player/Movement/PlayerController2D.cs:86-98 | the fields change, and the physics output is reported, as `FixedUpdateStep` says |
| Controller2D.PlayerController2D.HandleJump | Assets/Scripts/Player/Movement/PlayerController2D.cs:142-159 | the fields change as `HandleJumpStep` says |
| Controller2D.PlayerController2D.JumpPress | Assets/Scripts/Player/Movement/PlayerController2D.cs:144-151 | the fields change as `JumpPressStep` says |
| Controller2D.PlayerController2D.JumpCut | Assets/Scripts/Player/Movement/PlayerController2D.cs:154-158 | the fields change as `JumpCutStep` says |
| Controller2D.PlayerController2D.AdjustGravity | Assets/Scripts/Player/Movement/PlayerController2D.cs:216-233 | the fields change as `AdjustGravityStep` says |
| SimpleMovement.ResetJumpCountStep | Assets/Scripts/Player/PlayerMovement.cs:71-74 | the jumps are refilled to `maxJumps`, nothing else changes, and the counter invariant then holds |
| SimpleMovement.CollisionStep | Assets/Scripts/Player/PlayerMovement.cs:116-122 | touching ground refills the jumps; any other collider changes nothing |
| SimpleMovement.OnMoveStep | Assets/Scripts/Player/PlayerMovement.cs:47-51 | only the stored input changes |
| SimpleMovement.OnJumpStep | Assets/Scripts/Player/PlayerMovement.cs:53-60 | a jump happens exactly when the press is performed and a jump is left; it sets the vertical speed to `jumpForce` and spends one jump; otherwise nothing changes; the counter stays in [0, maxJumps] (see also lines 96-100) |
| SimpleMovement.OnDashStep | Assets/Scripts/Player/PlayerMovement.cs:62-69 | a performed press while not dashing starts a dash of `dashDuration` with gravity off and the velocity set to the horizontal input times `dashForce`; otherwise nothing changes (see also lines 102-108) |
| SimpleMovement.UpdateStep | Assets/Scripts/Player/PlayerMovement.cs:37-40 | a dash counts down and ends on the frame its timer reaches 0, restoring gravity scale 3; jumps, velocity and input are untouched (see also lines 76-86, 110-114) |
| SimpleMovement.FixedUpdateStep | Assets/Scripts/Player/PlayerMovement.cs:42-45 | outside a dash the horizontal speed follows the input times `moveSpeed` and the vertical speed is kept; during a dash nothing changes (see also lines 88-94) |
| SimpleMovement.JumpsBetweenGroundings | Assets/Scripts/Player/PlayerMovement.cs:53-60 | between touches of ground each jump spends exactly one, so no more jumps happen than were left, and the counter stays in [0, maxJumps] whatever else happens (see also lines 96-99, 116-122) |
| SimpleMovement.PlayerMovement.constructor | Assets/Scripts/Player/PlayerMovement.cs:27-35 | a new component has its jumps filled, no input and no dash |
| SimpleMovement.PlayerMovement.Update | Assets/Scripts/Player/PlayerMovement.cs:37-40 | the fields change as `UpdateStep` says |
| SimpleMovement.PlayerMovement.FixedUpdate | Assets/Scripts/Player/PlayerMovement.cs:42-45 | the fields change as `FixedUpdateStep` says |
| SimpleMovement.PlayerMovement.OnMove | Assets/Scripts/Player/PlayerMovement.cs:47-51 | the fields change as `OnMoveStep` says |
| SimpleMovement.PlayerMovement.OnJump | Assets/Scripts/Player/PlayerMovement.cs:53-60 | the fields change, and whether it jumped is reported, as `OnJumpStep` says |
| SimpleMovement.PlayerMovement.OnDash | Assets/Scripts/Player/PlayerMovement.cs:62-69 | the fields change as `OnDashStep` says |
| SimpleMovement.PlayerMovement.ResetJumpCount | Assets/Scripts/Player/PlayerMovement.cs:71-74 | the fields change as `ResetJumpCountStep` says |
| SimpleMovement.PlayerMovement.Jump | Assets/Scripts/Player/PlayerMovement.cs:96-100 | the vertical speed becomes `jumpForce` and one jump is spent |
| SimpleMovement.PlayerMovement.Dash | Assets/Scripts/Player/PlayerMovement.cs:102-108 | a dash of `dashDuration` starts with gravity off and the velocity at the horizontal input times `dashForce` |
| SimpleMovement.PlayerMovement.EndDash | Assets/Scripts/Player/PlayerMovement.cs:110-114 | the dash ends and gravity scale 3 is restored |
| SimpleMovement.PlayerMovement.OnCollisionEnter | Assets/Scripts/Player/PlayerMovement.cs:116-122 | the fields change as `CollisionStep` says |
| ContactDamage.TryDamageStep | Assets/Scripts/Enemy/EnemyDamager.cs:37-51 | damage is dealt exactly when `damageCooldown` has passed since the last damage, the collider's layer is in `playerLayerMask` and it has a live damageable; the last damage time moves to `now` exactly then |
| ContactDamage.OneDamagePerWindow | Assets/Scripts/Enemy/EnemyDamager.cs:22-51 | whatever mix of enter, stay and collision events arrives, every damage comes at least `damageCooldown` after the previous one, and the last damage time is that of the latest |
| ContactDamage.DefaultMaskIsLayerZero | Assets/Scripts/Enemy/EnemyDamager.cs:14 | with the default mask a collider is damaged only on layer 0 (see also lines 43) |
| ContactDamage.EnemyDamager.constructor | Assets/Scripts/Enemy/EnemyDamager.cs:11-20 | a new damager has its settings and has never dealt damage (`lastDamageTime = -1`) |
| ContactDamage.EnemyDamager.OnTriggerEnter | Assets/Scripts/Enemy/EnemyDamager.cs:22-25 | the damage decision and the new last damage time are those of `TryDamageStep` |
| ContactDamage.EnemyDamager.OnTriggerStay | Assets/Scripts/Enemy/EnemyDamager.cs:27-30 | the damage decision and the new last damage time are those of `TryDamageStep` |
| ContactDamage.EnemyDamager.OnCollisionEnter | Assets/Scripts/Enemy/EnemyDamager.cs:32-35 | the damage decision and the new last damage time are those of `TryDamageStep` |
| ContactDamage.EnemyDamager.TryDamagePlayer | Assets/Scripts/Enemy/EnemyDamager.cs:37-51 | the damage decision and the new last damage time are those of `TryDamageStep` |
| TriggerDamage.TriggerStayStep | Assets/Scripts/Enemies/EnemyDamager.cs:30-55 | damage is dealt exactly when the collider is tagged "Player", `damageInterval` has passed since the last damage, and the collider has a health system that is not invulnerable; the last damage time moves to `now` exactly then |
| TriggerDamage.NoDamageBeforeFirstInterval | Assets/Scripts/Enemies/EnemyDamager.cs:19 | the last damage time starts at 0, so nothing is dealt before `damageInterval` has elapsed (see also lines 35) |
| TriggerDamage.OneDamagePerInterval | Assets/Scripts/Enemies/EnemyDamager.cs:30-55 | over any run of stays every damage comes at least `damageInterval` after the previous one, and the last damage time is that of the latest |
| TriggerDamage.HitPlayerIsSkippedWhileInvulnerable | Assets/Scripts/Enemies/EnemyDamager.cs:38-40 | a hit that lands without killing makes the player invulnerable, so a stay within the player's invulnerability time is skipped even once `damageInterval` has passed |
| TriggerDamage.EnemyDamager.constructor | Assets/Scripts/Enemies/EnemyDamager.cs:19-28 | the enemy's own fresh health system is filled, then resized to `enemyHealth` (full at that size when it fits); nothing has been dealt and the enemy is not destroyed |
| TriggerDamage.EnemyDamager.OnTriggerStay | Assets/Scripts/Enemies/EnemyDamager.cs:30-55 | the damage decision and last damage time are those of `TriggerStayStep`; when dealt the player's health system took exactly `damageAmount`, otherwise it is untouched |
| TriggerDamage.EnemyDamager.OnEnemyDeath | Assets/Scripts/Enemies/EnemyDamager.cs:57-62 | the enemy is destroyed |
| TriggerDamage.EnemyDamager.ReceiveDamage | Assets/Scripts/Enemies/EnemyDamager.cs:25-27 | the enemy's health system takes the hit, and the enemy is destroyed exactly when that hit kills it (see also lines 57-62) |
| SkillBar.InitializeStep | Assets/Scripts/Player/SkillRegenUI.cs:28-32 | the maximum becomes the given value and the fill is kept; `HealthRegenUI.cs` repeats the same code (`HealthBar.InitializeStep`) |
| SkillBar.AddFillStep | Assets/Scripts/Player/SkillRegenUI.cs:11 | a positive amount on a full bar changes nothing; otherwise the fill moves by the amount, clamped to [0, maxFill]; the bar stays well-formed (see also lines 38-47) |
| SkillBar.UseStep | Assets/Scripts/Player/SkillRegenUI.cs:52-57 | the bar is emptied, so with a positive maximum it is no longer full |
| SkillBar.AddFillMonotone | Assets/Scripts/Player/SkillRegenUI.cs:38-47 | on a well-formed bar a non-negative amount never lowers the fill and a non-positive one never raises it |
| SkillBar.AddingTheGapFills | Assets/Scripts/Player/SkillRegenUI.cs:38-47 | adding at least the missing amount fills a well-formed bar exactly to `maxFill` |
| SkillBar.SkillRegenUI.constructor | Assets/Scripts/Player/SkillRegenUI.cs:8-9 | a new bar is empty with maximum 100 |
| SkillBar.SkillRegenUI.Initialize | Assets/Scripts/Player/SkillRegenUI.cs:28-32 | the bar changes as `InitializeStep` says |
| SkillBar.SkillRegenUI.AddFill | Assets/Scripts/Player/SkillRegenUI.cs:38-47 | the bar changes as `AddFillStep` says |
| SkillBar.SkillRegenUI.Use | Assets/Scripts/Player/SkillRegenUI.cs:52-57 | the bar changes as `UseStep` says |
| HealthBar.InitializeStep | Assets/Scripts/Player/HealthRegenUI.cs:27-31 | the maximum becomes the given value and the fill is kept; the same code as `SkillRegenUI.cs`, repeated in this file (`SkillBar.InitializeStep`) |
| HealthBar.AddFillStep | Assets/Scripts/Player/HealthRegenUI.cs:36-48 | a full bar is left alone whatever the amount; otherwise the amount is added and capped at `maxFill`, with no floor |
| HealthBar.UseStep | Assets/Scripts/Player/HealthRegenUI.cs:53-58 | the bar is emptied |
| HealthBar.NegativeAmountGoesBelowZero | Assets/Scripts/Player/HealthRegenUI.cs:36-48 | with no lower clamp, a negative amount drives the fill below 0 |
| HealthBar.AddManyFills | Assets/Scripts/Player/HealthRegenUI.cs:36-48 | `n` additions of a positive amount raise a well-formed bar by `n` times that amount, capped at the maximum |
| HealthBar.HealthRegenUI.constructor | Assets/Scripts/Player/HealthRegenUI.cs:8-9 | a new bar is empty with maximum 100 |
| HealthBar.HealthRegenUI.Initialize | Assets/Scripts/Player/HealthRegenUI.cs:27-31 | the bar changes as `InitializeStep` says |
| HealthBar.HealthRegenUI.AddFill | Assets/Scripts/Player/HealthRegenUI.cs:36-48 | the bar changes as `AddFillStep` says |
| HealthBar.HealthRegenUI.Use | Assets/Scripts/Player/HealthRegenUI.cs:53-58 | the bar changes as `UseStep` says |
| SkillRegen.IsFull | Assets/Scripts/Systems/SkillRegenSystem.cs:59-62 | full exactly when a bar is attached and that bar is full |
| SkillRegen.StartStep | Assets/Scripts/Systems/SkillRegenSystem.cs:16-27 | an attached bar gets `maxFillAmount` as its maximum; a missing one stays missing |
| SkillRegen.DecayStep | Assets/Scripts/Systems/SkillRegenSystem.cs:32-35 | only an attached bar that is neither full nor empty decays, by `fillDecayRate * dt`; a full bar is untouched, and a decay never raises the fill nor takes it below 0 |
| SkillRegen.UpdateStep | Assets/Scripts/Systems/SkillRegenSystem.cs:29-42 | the bar decays, and with a movement component the shadow-dash flag ends equal to whether the decayed bar is full; without one the flag is untouched |
| SkillRegen.AddFillStep | Assets/Scripts/Systems/SkillRegenSystem.cs:48-54 | a hit adds `fillPerHit` to an attached bar under the bar's own clamping; a missing bar stays missing |
| SkillRegen.FillToMaxStep | Assets/Scripts/Systems/SkillRegenSystem.cs:67-71 | `maxFillAmount` is added through the bar, so a well-formed bar no larger than that (as `Start` leaves it) ends full |
| SkillRegen.UseStep | Assets/Scripts/Systems/SkillRegenSystem.cs:76-79 | an attached bar is emptied; a missing one stays missing |
| SkillRegen.DecayKeepsBarInRange | Assets/Scripts/Systems/SkillRegenSystem.cs:29-35 | over any run of frames with non-negative decay a well-formed bar stays within [0, maxFill] and never rises, and a full bar stays exactly as it is, so the shadow dash stays enabled |
| SkillRegen.SkillRegenSystem.constructor | Assets/Scripts/Systems/SkillRegenSystem.cs:5-27 | `Start` is applied to the attached bar; the movement component is looked up and the shadow dash starts disabled |
| SkillRegen.SkillRegenSystem.Update | Assets/Scripts/Systems/SkillRegenSystem.cs:29-42 | the bar and the shadow-dash flag change as `UpdateStep` says |
| SkillRegen.SkillRegenSystem.AddFill | Assets/Scripts/Systems/SkillRegenSystem.cs:48-54 | the bar changes as `AddFillStep` says |
| SkillRegen.SkillRegenSystem.FillToMax | Assets/Scripts/Systems/SkillRegenSystem.cs:67-71 | the bar changes as `FillToMaxStep` says |
| SkillRegen.SkillRegenSystem.Use | Assets/Scripts/Systems/SkillRegenSystem.cs:76-79 | the bar changes as `UseStep` says |
| PlayerSkillRegen.IsFull | Assets/Scripts/Player/SkillRegenSystem.cs:45-48 | full exactly when a bar is attached and that bar is full |
| PlayerSkillRegen.StartStep | Assets/Scripts/Player/SkillRegenSystem.cs:13-19 | an attached bar gets `maxFillAmount` as its maximum; a missing one stays missing |
| PlayerSkillRegen.UpdateStep | Assets/Scripts/Player/SkillRegenSystem.cs:21-28 | only an attached bar that is neither full nor empty decays, by `fillDecayRate * dt`; a full bar is untouched |
| PlayerSkillRegen.AddFillStep | Assets/Scripts/Player/SkillRegenSystem.cs:34-40 | a hit adds `fillPerHit` to an attached bar under the bar's own clamping |
| PlayerSkillRegen.UseStep | Assets/Scripts/Player/SkillRegenSystem.cs:53-56 | an attached bar is emptied |
| PlayerSkillRegen.SameBarRulesAsSystems | Assets/Scripts/Player/SkillRegenSystem.cs:13-56 | with the same settings this controller's start, decay, hit, use and fullness test agree with the Systems controller's, so every property proved there holds here |
| PlayerSkillRegen.SkillRegenSystem.constructor | Assets/Scripts/Player/SkillRegenSystem.cs:13-19 | `Start` is applied to the attached bar |
| PlayerSkillRegen.SkillRegenSystem.Update | Assets/Scripts/Player/SkillRegenSystem.cs:21-28 | the bar changes as `UpdateStep` says |
| PlayerSkillRegen.SkillRegenSystem.AddFill | Assets/Scripts/Player/SkillRegenSystem.cs:34-40 | the bar changes as `AddFillStep` says |
| PlayerSkillRegen.SkillRegenSystem.Use | Assets/Scripts/Player/SkillRegenSystem.cs:53-56 | the bar changes as `UseStep` says |
| HealthRegen.StartStep | Assets/Scripts/Player/HealthRegenSystem.cs:21-28 | an attached bar gets `maxFillAmount` as its maximum; a missing one stays missing |
| HealthRegen.OnHealStep | Assets/Scripts/Player/HealthRegenSystem.cs:30-58 | a heal of `healAmount` happens exactly when the input is performed, the bar and the health component are both there and the bar is full; then the bar is emptied, otherwise it is untouched |
| HealthRegen.AddFillStep | Assets/Scripts/Player/HealthRegenSystem.cs:63-69 | a hit adds `fillPerHit` to an attached bar, capped by the bar |
| HealthRegen.NoSecondHealWithoutRefill | Assets/Scripts/Player/HealthRegenSystem.cs:47-52 | a heal empties the bar, so a second heal input straight after does nothing |
| HealthRegen.EnoughHitsEnableHeal | Assets/Scripts/Player/HealthRegenSystem.cs:21-28 | from an empty bar sized by `Start`, `n` hits with `n * fillPerHit >= maxFillAmount` fill it, so the next heal input heals (see also lines 47-52, 63-69) |
| HealthRegen.HitsAreAddMany | Assets/Scripts/Player/HealthRegenSystem.cs:63-69 | `n` hits on an attached bar are `n` additions of `fillPerHit` to it |
| HealthRegen.HealthRegenSystem.constructor | Assets/Scripts/Player/HealthRegenSystem.cs:14-28 | `Awake` finds the health component or not, and `Start` is applied to the attached bar |
| HealthRegen.HealthRegenSystem.OnHeal | Assets/Scripts/Player/HealthRegenSystem.cs:30-58 | the bar changes, and the heal is reported, as `OnHealStep` says |
| HealthRegen.HealthRegenSystem.AddFill | Assets/Scripts/Player/HealthRegenSystem.cs:63-69 | the bar changes as `AddFillStep` says |
| HealthItems.UseItemStep | Assets/Scripts/Player/HealthItemSystem.cs:44-57 | a heal of `healPercentage` happens exactly when an item is left, the health component is there and health is not full; it spends exactly one item, and a refusal leaves the count; a non-negative count stays non-negative |
| HealthItems.OnHealStep | Assets/Scripts/Player/HealthItemSystem.cs:36-42 | only the performed phase uses an item; any other phase changes nothing |
| HealthItems.HealsSpendItems | Assets/Scripts/Player/HealthItemSystem.cs:36-57 | whatever the presses, the heals plus the items left add up to the starting stock, so the count never goes negative and at most that many heals happen |
| HealthItems.HealthItemSystem.constructor | Assets/Scripts/Player/HealthItemSystem.cs:15-25 | `Awake` finds the health component or not, and the count starts at 0 |
| HealthItems.HealthItemSystem.Start | Assets/Scripts/Player/HealthItemSystem.cs:27-31 | the count becomes `initialItemCount` |
| HealthItems.HealthItemSystem.OnHeal | Assets/Scripts/Player/HealthItemSystem.cs:36-42 | the count changes, and the heal is reported, as `OnHealStep` says |
| HealthItems.HealthItemSystem.UseItem | Assets/Scripts/Player/HealthItemSystem.cs:44-57 | the count changes, and the heal is reported, as `UseItemStep` says |
| Parry.OnParryStep | Assets/Scripts/Player/PlayerParry.cs:36-42 | a parry starts exactly when the input is performed and a parry is allowed: the player is parrying, no other parry is allowed, and the window lasts until `now + parryDuration`; otherwise nothing changes (see also lines 44-49) |
| Parry.TickStep | Assets/Scripts/Player/PlayerParry.cs:44-56 | when the parry window is over the player stops parrying and the cooldown runs `parryCooldown` from that frame; when the cooldown is over a parry is allowed again; before then nothing changes; the phase invariant is kept |
| Parry.StartsSpaced | Assets/Scripts/Player/PlayerParry.cs:36-56 | from any point of a parry started at `t0`, with events in time order, every later parry starts at least `parryDuration + parryCooldown` after the previous one |
| Parry.ParryWindowsNeverOverlap | Assets/Scripts/Player/PlayerParry.cs:36-56 | after a parry starts at `t0`, with events in time order, consecutive parries start at least `parryDuration + parryCooldown` apart, so parry windows never overlap |
| Parry.PlayerParry.constructor | Assets/Scripts/Player/PlayerParry.cs:17-34 | a new parry component is not parrying, may parry and keeps the skill bar controller it finds |
| Parry.PlayerParry.OnParry | Assets/Scripts/Player/PlayerParry.cs:36-42 | the fields change, and the start is reported, as `OnParryStep` says |
| Parry.PlayerParry.Tick | Assets/Scripts/Player/PlayerParry.cs:44-56 | the fields change as `TickStep` says |
| Parry.PlayerParry.OnSuccessfulParry | Assets/Scripts/Player/PlayerParry.cs:61-70 | an attached skill bar controller fills its bar as its `FillToMax` says |
| Stamina.StartStep | Assets/Scripts/Player/PlayerStamina.cs:30-34 | the pool is full, and with a non-negative maximum the range invariant holds |
| Stamina.ConsumeStep | Assets/Scripts/Player/PlayerStamina.cs:39-43 | stamina is consumed exactly when at least 1 point is left, whatever the amount asked; then the smaller of the amount and what is left is taken, stamina never goes below 0, and the regeneration restarts its `staminaRegenDelay` wait from `now`; otherwise nothing changes (see also lines 48-66) |
| Stamina.RefillStep | Assets/Scripts/Player/PlayerStamina.cs:74-81 | below the maximum the frame's `staminaRegenRate * dt` is added and clamped to [0, maxStamina]; at the maximum the loop ends |
| Stamina.TickStep | Assets/Scripts/Player/PlayerStamina.cs:68-82 | nothing happens while the regeneration is not running or still waiting; after the wait each frame refills; the range invariant is kept and stamina never drops |
| Stamina.StaminaStaysInRange | Assets/Scripts/Player/PlayerStamina.cs:48-82 | whatever the sequence of non-negative consumptions and frames, stamina stays within [0, maxStamina] |
| Stamina.NegativeConsumptionOverfills | Assets/Scripts/Player/PlayerStamina.cs:48-54 | a negative amount, which is not rejected, raises stamina past the maximum |
| Stamina.PlayerStamina.constructor | Assets/Scripts/Player/PlayerStamina.cs:15-18 | a new pool holds 0 with no regeneration running |
| Stamina.PlayerStamina.Start | Assets/Scripts/Player/PlayerStamina.cs:30-34 | the pool changes as `StartStep` says |
| Stamina.PlayerStamina.ConsumeStamina | Assets/Scripts/Player/PlayerStamina.cs:48-66 | the pool changes, and the consumption is reported, as `ConsumeStep` says |
| Stamina.PlayerStamina.Tick | Assets/Scripts/Player/PlayerStamina.cs:68-82 | the pool changes as `TickStep` says |
| PauseMenu.PauseStep | Assets/Scripts/UI/PauseMenuManager.cs:208-214 | pausing a running game records its time scale and stops time; an already paused game is left as it is; the game ends paused |
| PauseMenu.ResumeStep | Assets/Scripts/UI/PauseMenuManager.cs:232-237 | resuming a paused game restores the recorded time scale; a running game is left as it is; the game ends running |
| PauseMenu.PauseAndResumeAreIdempotent | Assets/Scripts/UI/PauseMenuManager.cs:208-237 | pausing twice is pausing once, and resuming twice is resuming once |
| PauseMenu.ToggleStep | Assets/Scripts/UI/PauseMenuManager.cs:196-206 | a toggle resumes a paused game and pauses a running one, so the paused flag always flips |
| PauseMenu.ForceResumeStep | Assets/Scripts/UI/PauseMenuManager.cs:301-311 | a scene load or quitting leaves the game running, at the recorded time scale when it was paused (see also lines 319-325) |
| PauseMenu.FocusLossStep | Assets/Scripts/UI/PauseMenuManager.cs:339-354 | losing focus or the application pausing pauses a running game only when `pauseOnFocusLoss` is set; regaining focus never resumes |
| PauseMenu.PauseResumeRestoresTimeScale | Assets/Scripts/UI/PauseMenuManager.cs:208-237 | pausing then resuming, or toggling twice, gives back a running game's time scale, whatever it was |
| PauseMenu.TogglesAlternate | Assets/Scripts/UI/PauseMenuManager.cs:196-237 | from a running game, an odd number of toggles leaves it paused with time stopped and an even number leaves it running at its own time scale |
| PauseMenu.PauseMenuManager.constructor | Assets/Scripts/UI/PauseMenuManager.cs:16 | a new menu is not paused, records scale 1, and has no enemies registered (see also lines 23-28) |
| PauseMenu.PauseMenuManager.Start | Assets/Scripts/UI/PauseMenuManager.cs:58-66 | the enemies found in the scene are registered and the pause state is untouched |
| PauseMenu.PauseMenuManager.RefreshEnemyReferences | Assets/Scripts/UI/PauseMenuManager.cs:285-299 | the enemy lists are replaced by those found; the pause state is untouched |
| PauseMenu.PauseMenuManager.Update | Assets/Scripts/UI/PauseMenuManager.cs:68-75 | the escape key toggles as `ToggleStep` says, and every registered ground and flying enemy follows the toggle as `TogglePause` says; without it the pause state and every registered enemy are unchanged |
| PauseMenu.PauseMenuManager.TogglePause | Assets/Scripts/UI/PauseMenuManager.cs:196-206 | the pause state changes as `ToggleStep` says; every registered ground enemy takes the new flag, and every registered flying enemy is resumed as `FlyingPatrol.ResumeStep` says when the game was paused and paused as `FlyingPatrol.PauseStep` says otherwise |
| PauseMenu.PauseMenuManager.PauseGame | Assets/Scripts/UI/PauseMenuManager.cs:208-230 | a running game pauses as `PauseStep` says, and every registered enemy with it; a paused game is left as it is, enemies included |
| PauseMenu.PauseMenuManager.ResumeGame | Assets/Scripts/UI/PauseMenuManager.cs:232-253 | a paused game resumes as `ResumeStep` says, and every registered enemy with it; a running game is left as it is, enemies included |
| PauseMenu.PauseMenuManager.PauseEnemyAI | Assets/Scripts/UI/PauseMenuManager.cs:255-268 | every non-null registered ground and flying enemy is paused; null entries are skipped |
| PauseMenu.PauseMenuManager.ResumeEnemyAI | Assets/Scripts/UI/PauseMenuManager.cs:270-283 | every non-null registered ground and flying enemy is resumed; null entries are skipped |
| PauseMenu.PauseMenuManager.OnSceneLoaded | Assets/Scripts/UI/PauseMenuManager.cs:301-311 | the new scene's enemies are registered, then the game is resumed as `ForceResumeStep` says; when it was paused every newly registered ground and flying enemy is resumed, otherwise they are unchanged |
| PauseMenu.PauseMenuManager.QuitToMainMenu | Assets/Scripts/UI/PauseMenuManager.cs:319-336 | the game is resumed as `ForceResumeStep` says before leaving; when it was paused every registered ground and flying enemy is resumed, otherwise they are unchanged |
| PauseMenu.PauseMenuManager.OnApplicationFocus | Assets/Scripts/UI/PauseMenuManager.cs:339-345 | the pause state changes as `FocusLossStep` says for a loss of focus; every registered enemy is paused exactly when this call pauses the game, and is unchanged otherwise |
| PauseMenu.PauseMenuManager.OnApplicationPause | Assets/Scripts/UI/PauseMenuManager.cs:348-354 | the pause state changes as `FocusLossStep` says for the application pausing; every registered enemy is paused exactly when this call pauses the game, and is unchanged otherwise |
| PausePlayer.PauseStep | Assets/Scripts/Player/PauseScript.cs:60-71 | time stops and the game is paused |
| PausePlayer.ResumeStep | Assets/Scripts/Player/PauseScript.cs:73-84 | time runs at scale 1, whatever it was before, and the game is not paused |
| PausePlayer.ToggleStep | Assets/Scripts/Player/PauseScript.cs:48-58 | the paused flag flips, and time stops on pausing and runs at 1 on resuming |
| PausePlayer.OnPauseActionStep | Assets/Scripts/Player/PauseScript.cs:40-46 | only the performed phase toggles; any other phase changes nothing |
| PausePlayer.LoadMainMenuStep | Assets/Scripts/Player/PauseScript.cs:86-90 | time runs at scale 1 and the paused flag is left as it was |
| PausePlayer.ToggleTwiceResetsTimeScale | Assets/Scripts/Player/PauseScript.cs:48-84 | two toggles from a running game end running at scale 1, so a custom time scale is lost |
| PausePlayer.MenuWhilePausedNextPressResumes | Assets/Scripts/Player/PauseScript.cs:40-58 | leaving for the main menu while paused keeps the flag set, so the next pause press resumes instead of pausing (see also lines 86-90) |
| PausePlayer.PauseScript.constructor | Assets/Scripts/Player/PauseScript.cs:9 | a new pause script is not paused and time keeps its scale |
| PausePlayer.PauseScript.OnPauseAction | Assets/Scripts/Player/PauseScript.cs:40-46 | the state changes as `OnPauseActionStep` says |
| PausePlayer.PauseScript.TogglePause | Assets/Scripts/Player/PauseScript.cs:48-58 | the state changes as `ToggleStep` says |
| PausePlayer.PauseScript.Pause | Assets/Scripts/Player/PauseScript.cs:60-71 | the state changes as `PauseStep` says |
| PausePlayer.PauseScript.Resume | Assets/Scripts/Player/PauseScript.cs:73-84 | the state changes as `ResumeStep` says |
| PausePlayer.PauseScript.LoadMainMenu | Assets/Scripts/Player/PauseScript.cs:86-90 | the state changes as `LoadMainMenuStep` says |
| Game.PauseGameStep | Assets/Scripts/Systems/GameManager.cs:139-156 | setting the flag to its current value changes nothing; otherwise the flag is set, time stops or runs at 1, and an existing input manager is disabled or enabled to match |
| Game.TogglePauseStep | Assets/Scripts/Systems/GameManager.cs:161-164 | the pause flag is negated |
| Game.InitializeStep | Assets/Scripts/Systems/GameManager.cs:74-99 | a first call makes sure an input manager exists and marks the game initialised; a later call changes nothing |
| Game.FocusStep | Assets/Scripts/Systems/GameManager.cs:59-65 | with focus pausing on, losing focus pauses and regaining it unpauses; otherwise nothing changes |
| Game.InitializeOnce | Assets/Scripts/Systems/GameManager.cs:76 | initialisation happens at most once: a second call, whatever it is given, changes nothing |
| Game.PauseGameIdempotent | Assets/Scripts/Systems/GameManager.cs:141 | setting the pause flag twice to the same value is setting it once |
| Game.ToggleTwiceRuns | Assets/Scripts/Systems/GameManager.cs:139-164 | two toggles from a running game end running at scale 1 with any input manager enabled |
| Game.RegainingFocusUnpauses | Assets/Scripts/Systems/GameManager.cs:59-65 | with focus pausing on, losing then regaining focus leaves the game running at scale 1 even if it was paused before (see also lines 139-156) |
| Game.GameManager.constructor | Assets/Scripts/Systems/GameManager.cs:11-25 | a new manager is neither paused nor initialised, keeps the time scale and the input manager it was given |
| Game.GameManager.Start | Assets/Scripts/Systems/GameManager.cs:51-57 | the game initialises as `InitializeStep` says when `initializeOnStart` is set; otherwise nothing changes |
| Game.GameManager.OnApplicationFocus | Assets/Scripts/Systems/GameManager.cs:59-65 | the state changes as `FocusStep` says |
| Game.GameManager.InitializeGame | Assets/Scripts/Systems/GameManager.cs:74-99 | the state changes as `InitializeStep` says |
| Game.GameManager.PauseGame | Assets/Scripts/Systems/GameManager.cs:139-156 | the state changes as `PauseGameStep` says |
| Game.GameManager.TogglePause | Assets/Scripts/Systems/GameManager.cs:161-164 | the state changes as `TogglePauseStep` says |
| Game.GameManager.RestartGame | Assets/Scripts/Systems/GameManager.cs:169-175 | time runs at scale 1 and the pause flag is not cleared |
| Dialogue.Stop | Assets/Scripts/UI/DialogueScript.cs:72-73 | stopping keeps a handle but its coroutine no longer runs; no handle stays no handle (see also lines 94) |
| Dialogue.BeginTyping | Assets/Scripts/UI/DialogueScript.cs:75 | a new coroutine for the page clears the text and types the first letter, and an empty page finishes at once; the page and activity are untouched (see also lines 78-85) |
| Dialogue.ShowPageStep | Assets/Scripts/UI/DialogueScript.cs:70-76 | it throws exactly when the current page is outside `pages`, after stopping any coroutine; otherwise the current page starts typing |
| Dialogue.StartDialogueStep | Assets/Scripts/UI/DialogueScript.cs:62-68 | the dialogue becomes active at page 0; it throws exactly when there are no pages; otherwise page 0 starts typing and the invariant is kept |
| Dialogue.EndDialogueStep | Assets/Scripts/UI/DialogueScript.cs:112-116 | the dialogue is no longer active; the page and any typing are left as they are |
| Dialogue.OnNextStep | Assets/Scripts/UI/DialogueScript.cs:88-110 | ignored while inactive; with a typing handle the whole page is shown and the handle cleared without moving on; without one the next page starts typing, or past the last page the dialogue ends; it never throws while the invariant holds, and keeps it |
| Dialogue.TriggerEnterStep | Assets/Scripts/UI/DialogueScript.cs:46-52 | the player starts the dialogue only when it is not already active |
| Dialogue.TriggerExitStep | Assets/Scripts/UI/DialogueScript.cs:54-60 | the player leaving ends the dialogue only when it is active |
| Dialogue.TickStep | Assets/Scripts/UI/DialogueScript.cs:78-85 | a running coroutine types the next letter of its page, or finishes once the page is complete; the handle stays, and the invariant is kept |
| Dialogue.TypingCompletes | Assets/Scripts/UI/DialogueScript.cs:78-85 | left alone, a running coroutine types the rest of its page and then finishes, with its text equal to the page, but the handle is not cleared |
| Dialogue.FinishedPageNeedsTwoPresses | Assets/Scripts/UI/DialogueScript.cs:88-110 | because the handle survives the coroutine finishing, a fully typed page still takes two presses to leave: the first only shows it again and clears the handle |
| Dialogue.EmptyPagesBreakTheDialogue | Assets/Scripts/UI/DialogueScript.cs:62-68 | with no pages, starting the dialogue throws and leaves it active on a page that does not exist (see also lines 75) |
| Dialogue.DialogueStaysOnAPage | Assets/Scripts/UI/DialogueScript.cs:46-116 | with at least one page no sequence of touches, presses and frames throws, and whenever the dialogue is active its current page exists |
| Dialogue.DialogueScript.constructor | Assets/Scripts/UI/DialogueScript.cs:13-21 | a new dialogue is inactive at page 0 with no handle |
| Dialogue.DialogueScript.OnTriggerEnter | Assets/Scripts/UI/DialogueScript.cs:46-52 | the state changes, and the throw is reported, as `TriggerEnterStep` says |
| Dialogue.DialogueScript.OnTriggerExit | Assets/Scripts/UI/DialogueScript.cs:54-60 | the state changes as `TriggerExitStep` says |
| Dialogue.DialogueScript.StartDialogue | Assets/Scripts/UI/DialogueScript.cs:62-68 | the state changes, and the throw is reported, as `StartDialogueStep` says |
| Dialogue.DialogueScript.ShowPage | Assets/Scripts/UI/DialogueScript.cs:70-76 | the state changes, and the throw is reported, as `ShowPageStep` says |
| Dialogue.DialogueScript.Tick | Assets/Scripts/UI/DialogueScript.cs:78-85 | the state changes as `TickStep` says |
| Dialogue.DialogueScript.OnNextDialogue | Assets/Scripts/UI/DialogueScript.cs:88-110 | the state changes, and the throw is reported, as `OnNextStep` says |
| Dialogue.DialogueScript.EndDialogue | Assets/Scripts/UI/DialogueScript.cs:112-116 | the state changes as `EndDialogueStep` says |
| Utilities.FindClosest | Assets/Scripts/Utilities/GameUtilities.cs:127-147 | nothing for a missing or empty list, or one whose entries are all missing; otherwise the index of a present entry nearest to the reference, the earliest on a tie |
| Utilities.SqrDistance | Assets/Scripts/Utilities/GameUtilities.cs:138 | squared distances are never negative |
| Utilities.SqrDistanceOrdersAsDistance | Assets/Scripts/Utilities/GameUtilities.cs:138-139 | for non-negative distances whose squares are the squared distances, comparing the squares (either strictly or not) gives the same answer as comparing the distances, so the squared comparison picks the same target |
| Utilities.Clamp01 | Assets/Scripts/Utilities/GameUtilities.cs:112 | the parameter is clamped into [0, 1] and left alone inside it |
| Utilities.Lerp | Assets/Scripts/Utilities/GameUtilities.cs:112 | interpolation gives the start at parameter 0 and the end at parameter 1 |
| Utilities.ParabolicPoint | Assets/Scripts/Utilities/GameUtilities.cs:110-115 | the straight-line point, with its height raised by `4 * height * t * (1 - t)` |
| Utilities.ArcEndsAndPeak | Assets/Scripts/Utilities/GameUtilities.cs:110-115 | the arc starts at the start point, ends at the end point and peaks `height` above the midpoint |
| Utilities.ArcPastTheEnd | Assets/Scripts/Utilities/GameUtilities.cs:110-115 | past the end the straight-line part stays at the end point but the offset does not: at `t = 2` the point is `8 * height` below it |
| Utilities.EaseInOut | Assets/Scripts/Utilities/GameUtilities.cs:240-255 | linear and unknown types return `t`; quadratic and cubic use their in-out curves; sine is `(1 - cos(PI * t)) / 2` |
| Utilities.EasingFixedPoints | Assets/Scripts/Utilities/GameUtilities.cs:246-249 | quadratic and cubic easing give 0, 0.5 and 1 at 0, 0.5 and 1 |
| Utilities.QuadraticEaseSymmetric | Assets/Scripts/Utilities/GameUtilities.cs:246-247 | quadratic easing is symmetric about the middle and stays within [0, 1] on [0, 1] |
| Utilities.CubicEaseSymmetric | Assets/Scripts/Utilities/GameUtilities.cs:248-249 | cubic easing is symmetric about the middle |

## Left out

- Physics integration: forces, impulses and knockback vectors are reported or omitted, never integrated. The velocity a body has on the next frame is an input.
- Dash.DashDirection: returns the input vector that the source normalises, not its unit vector, because square roots are not modelled.
- PlatformerController.DashDirection: returns the input vector that the source normalises, not its unit vector, for the same reason.
- Controller2D.DashDirection: returns the input vector that the source normalises, not its unit vector, for the same reason.
- Vector lengths: square roots and `magnitude` are compared squared.
- Floating point: all arithmetic is exact over reals. Float rounding, overflow, infinities and NaN are not modelled.
- BasicEnemyHealth.RunKeepsBoundsAndDiesOnce: holds only when no heal in the run can carry health past 2^31 - 1 (`HealsFit`). An overflowing heal leaves health negative, as `BasicEnemyHealth.HealOverflowKillsSilently` shows.
- SimpleEnemyHealth.NonNegativeHitsNeverRaise: holds only while the hits' total keeps health at or above -2^31. Past that, health wraps to a large positive value, as `SimpleEnemyHealth.LateHitsWrapBackToLife` shows.
- SimpleEnemyHealth.DieOnEveryLaterHit: has the same limit as `NonNegativeHitsNeverRaise`. The hit that wraps does not call `Die`.
- PlayerHealthInt.HealStep: keeps health within [0, max] only when the 32-bit sum fits. `PlayerHealthInt.HealOverflowLeavesNegativeHealth` shows the overflow.
- DoubleJump.DoubleJumpSystem.TryJump: the class runs the corrected gate (`TryJumpStep`), not `CanJump` as written. The gate as written is modelled by `DoubleJump.TryJumpAsWrittenStep` and reported under Findings.
- Dash.CooldownProgress: requires `dashCooldown > 0`, because the source divides by it and a zero cooldown would give a float infinity or NaN.
- ComboMelee.ResumeStep: requires `dt >= 0`, since `Time.deltaTime` is never negative; the same holds for ComboMelee.AttackStep and the class methods ComboMelee.MeleeAttackSystem.ResumeSwing and ComboMelee.MeleeAttackSystem.Attack.
- CombatDirection.PlayerCombatController.Attack: requires `dt >= 0`, inherited from the combo system's first swing step; so does CombatDirection.PlayerCombatController.HandleAttackInput.
- Private handlers called from one dispatch carry that dispatch's guard as a requirement. Examples: the patrol handlers (`GroundPatrol`, `FlyingPatrol`, `EnemyPatrolAI`), `EnemyController.FaceStep`, and `MeleeEnemy.PatrolPointStep`, which runs only when patrol points exist.
- `TriggerDamage.EnemyDamager.OnTriggerStay` requires that the player's health system is not the enemy's own, because the model does not follow two references to one object.
- Hit-stop (`HitStopCoroutine`) and every other write to the global `Time.timeScale` outside the pause state machines.
- Audio, hit effects, sprite flashes and fades, animation, gizmos, debug logging and the `UpdateUI` image writes of the bars.
- `AnimationCurve` evaluation: the dash speed curve is not modelled, and a dash moves at its configured speed.
- Unity events with no logic of their own (`OnDamageTaken` and `OnHealed` loggers, `OnStaminaChanged`, `onPause`/`onResume`, `OnGamePaused`, `OnGameInitialized`): their firing is reported where a contract depends on it, and their listeners are omitted.
- `BasicMeleeEnemy.UpdateSimplePatrol`: it changes direction at random. `UpdateMovement`'s velocity writes are left out too.
- Patrol points are assumed not to move. As a consequence, the "flip on reaching the target" branch of `PatrolScript.Patrol` is dead.
- Members that the sources call but do not define are parameters or flags:
  - `PlayerHealth.IsAtMaxHealth`, `Heal` and `HealPercentage`: at-maximum is a parameter, and the heal is reported as the amount requested;
  - `PlayerMovement.canShadowDash`: a flag of the Systems skill controller;
  - the combo system's readiness check and attack call in `BasicMeleeEnemy`: given each frame;
  - `InputManager`'s enable state: an optional flag.
- `PlayerStamina`'s skill-bar lookup, which is never used.
- `FlyingPatrol.FlyingEnemyAI.constructor` includes `Start`. The path-finding agent is reduced to the destination and the `canMove` flag that the script writes to it.
- `PauseMenuManager`: building the panel and buttons, the cursor, the singleton `Instance` and the scene-load subscription. `OnSceneLoaded` is a method that receives the new scene's enemies.
- `PauseScript`: the menu object, the singleton, loading the main menu scene and quitting.
- `GameManager`: spawning the player, the camera controller, the singleton, and the scene reload in `RestartGame`.
- `GameUtilities`:
  - not modelled: `IsPointInCone`, `CalculateKnockback`, `IsPositionInCameraView`, `Remap`, `SmoothDamp`, `FindObjectsInRadius`, `SafeDestroy`, `CreateBounceCurve` and `DrawDebugArc`, which are vector geometry, engine queries or engine object management;
  - sine easing takes the cosine as a parameter.
- `DialogueScript`: the panel, the text widget and the input action set-up. An out-of-range page index, which throws in the source, is reported as `thrown`.
- Concurrency and frame ordering between components: each component is modelled on its own. Compositions are modelled only where one script calls another directly, for example the controllers' health systems, the parry filling the skill bar and the pause menu pausing enemies.

## Findings

| source | as written | input that shows it | evidently intended | confidence | as-written member | corrected member |
|---|---|---|---|---|---|---|
| Assets/Scripts/Player/Movement/DoubleJumpSystem.cs:28 | `CanJump` admits any jump while `coyoteTimer > 0`, without checking `jumpCount < maxJumps`. Leaving the ground after a ground jump starts coyote time, so a second jump goes through. | `maxJumps = 1`: a grounded frame, a jump request, an airborne frame within `coyoteTime`, and a second request. The counter reaches 2. | Coyote time extends the ground jump but never exceeds `maxJumps`. | medium, not executed | DoubleJump.CoyoteJumpExceedsMaxJumps | DoubleJump.AirJumpsBounded |
