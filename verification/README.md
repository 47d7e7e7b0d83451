# A verified model of a bullet-hell shooter's game logic

This project models the game logic of a vertical-scrolling bullet-hell
("danmaku") shooter written in TypeScript on Phaser 3. The model covers:

- the bullet patterns (ten basic patterns and six spell cards);
- the pooled bullet manager, with its cap on enemy bullets;
- the player (movement, shot volleys, invincibility);
- the run counters of the game scene (score, lives, bombs, power, graze);
- enemies (movement patterns, shooting, damage, death);
- the enemy manager's wave schedule and boss spawn;
- the item pickups;
- the four collision sweeps (player bullets against enemies, enemy bullets
  against the player, ramming, grazing);
- the scene's frame, which runs all of these in order.

The project is written in Dafny, and every contract below is checked by
Dafny's verifier.

Modules follow the source files: `Config` (src/config/GameConfig.ts),
`BasicPatterns`, `SpellPatterns`, `BulletManager`, `Player`, `Enemy`,
`EnemyManager`, `CollisionSystem`, `ItemManager` and `GameScene` (the run
counters and the entry points other systems call). `GameLoop` holds the
scene's `create`, `startStage` and `update`. `Emissions` holds the shared
vocabulary: angles, shots and the trigonometry parameter. `Wrappers` holds
`Option`.

How the model represents the game:

- **Patterns are pure functions.** A pattern returns the sequence of shots
  it asks for. One `Shot` is one `createEnemyBullet(x, y, dirX, dirY, speed)`
  call. Firing a pattern is `BulletManager.Emit`, which makes those calls in
  order.
- **Angles are exact.** An angle is `Angle(turns, rad)`, meaning
  2π·turns + rad. So "bullet i of a circle is at 2πi/n" is exact, with no
  floating point.
- **Trigonometry is a parameter.** `cos`, `sin` and `atan2` are a `Trig`
  record of arbitrary functions passed in. No property depends on what they
  compute.
- **Sprites are values.** Bullets and items are values in sequences that
  their manager reassigns. The pool is `Group.get` as the source uses it: the
  first inactive sprite is reused, and a new one is appended when every
  sprite is active.
- **Stateful objects are classes.** Enemies, the player, the scene and the
  managers are classes whose methods change their fields. Each method is
  proved against a function of the old state (for example
  `State() == Stepped(old(State()), …)`), and the lemmas are proved about
  those functions.
- **Collisions run on a snapshot.** The collision sweeps work on a `World`
  value: the two bullet pools, the enemies' states, the run counters, and the
  player's position and invincibility. `CollisionSystem.Update` is proved to
  turn the objects' snapshot into `Collide` of the old snapshot.
- **Distances are compared squared.** For a positive threshold t,
  `sqrt(dx²+dy²) < t` holds exactly when `dx²+dy² < t²`
  (`CollisionSystem.NearIsDistance`).
- **Randomness, the clock and the keyboard are parameters.** `Math.random`
  is a draw function `roll: nat -> real`, and `Phaser.Math.Between` is a
  `draw` argument. `time` and `delta` are arguments. The keys held this frame
  are a `Keys` value. When a delayed call fires is also a parameter, for both
  the spawns scheduled by `spawnWave` and the invincibility timer of
  `makeInvincible`.

Where the design intent and the code differ, the model follows the code:

- **No boss flag.** `EnemyManager.update` spawns a boss on every frame in
  which the stage has run its duration and no enemy is active. Nothing
  records that a boss already came. Spiral and random spawns that are still
  pending do not count as enemies, so the boss can appear before they arrive
  (`EnemyManager.BossReturns`).
- **Player bullets pierce.** A player bullet is deactivated at its first
  hit, but the inner loop over the enemies tests only whether the enemy is
  active, never whether the bullet still is. So one bullet damages every
  enemy it overlaps in that frame (`CollisionSystem.BulletHitsSpec`).
- **The `grazed` mark is never cleared.** `createEnemyBullet` does not reset
  it, so a recycled bullet that was grazed once can never be grazed again
  (`BulletManager.EnemyBulletCreated` keeps the old mark).
- **Grazing includes the hit zone.** The graze radius is 20 pixels, which
  includes the hit zone. The graze sweep runs after the hit sweep and skips
  a bullet that the hit sweep has just deactivated.
- **The last life can be lost twice.** When the last life is lost, the sweep
  goes on. A second bullet on the player in the same frame takes lives to -1
  and calls `gameOver` again (`CollisionSystem.LastLifeLostTwice`).
- **`maxHp` is not scaled.** `createEnemy` multiplies `hp` by the difficulty
  but leaves `maxHp` at the unscaled value. So on HARD an enemy starts above
  its maximum (`EnemyManager.CreatedSpec`).
- **Item drops are dead code.** `createItem` is modelled, but the source
  never calls it, because the drop in `Enemy.die` is commented out.
- **Frame order.** A frame first fires the invincibility timer when it is
  due. It then runs the enemies' own updates (the group's `runChildUpdate`),
  and then the scene's `update`. That update runs the player, the bomb, the
  bullets, the enemy manager, the items and the collisions, in that order
  (`GameLoop.Game.Frame`).

## Model

| member | source | states |
|---|---|---|
| Config.Profile | src/config/GameConfig.ts:56-77 | the difficulty table's entry; every multiplier is positive |
| Config.DifficultyIncreases | src/config/GameConfig.ts:56-77 | bullet speed and enemy hp multipliers strictly grow from EASY to NORMAL to HARD |
| Config.ConstantsAreConsistent | src/config/GameConfig.ts:4-53 | focused speed is below normal speed; lives and bombs are at least one; the hitbox is small and positive; enemy bullet speeds are ordered; the cap lies between 100 and 5000; the score values are ordered basic < elite < boss; the play area is inside the screen |
| Emissions.AlongZero | src/patterns/SpellPatterns.ts:117-148 | a point placed at distance 0 along any angle is the starting point (the first bullet of each dragon arm) |
| BasicPatterns.Circle | src/patterns/BasicPatterns.ts:10-24 | a circle fires one bullet per count, and none for a non-positive count |
| BasicPatterns.CircleShape | src/patterns/BasicPatterns.ts:10-24 | every circle bullet starts at the centre with the given speed; bullet i flies at 2πi/n + offset, so neighbours are exactly 1/n turn apart |
| BasicPatterns.CircleOfTwelve | src/patterns/BasicPatterns.ts:10-24 | twelve bullets from the origin are spaced 1/12 turn apart from angle 0 |
| BasicPatterns.Spiral | src/patterns/BasicPatterns.ts:29-43 | a spiral fires one bullet per arm |
| BasicPatterns.SpiralIsCircle | src/patterns/BasicPatterns.ts:29-43 | a spiral is exactly a circle of `arms` bullets whose offset is the rotation |
| BasicPatterns.FanAnglesAsWritten | src/patterns/BasicPatterns.ts:48-65 | the fan's angle computation as written gives one angle per bullet, None standing for NaN |
| BasicPatterns.FanOfOneHasNoAngle | src/patterns/BasicPatterns.ts:48-65 | as written, a one-bullet fan divides by zero and its only bullet has a NaN angle |
| BasicPatterns.Fan | src/patterns/BasicPatterns.ts:48-65 | a fan fires one bullet per count |
| BasicPatterns.FanEndpoints | src/patterns/BasicPatterns.ts:48-65 | the corrected fan starts at the start angle, ends at the end angle for two or more bullets, and steps evenly by (end - start)/(n - 1); wherever the code computes an angle, the corrected fan fires along it |
| BasicPatterns.Random | src/patterns/BasicPatterns.ts:70-85 | a random burst fires one bullet per count |
| BasicPatterns.RandomSpeedInRange | src/patterns/BasicPatterns.ts:70-85 | with draws in [0, 1), each bullet's speed lies in [minSpeed, maxSpeed] (below maxSpeed when the range is not empty) and its angle is a drawn fraction of the whole circle |
| BasicPatterns.Wave | src/patterns/BasicPatterns.ts:90-111 | a wave row fires one bullet per count |
| BasicPatterns.WaveRow | src/patterns/BasicPatterns.ts:90-111 | the bullets stand in a row at height y, 15 apart, starting at x - 7.5n; bullet i flies at the base angle deflected by sin(i·frequency)·amplitude |
| BasicPatterns.Laser | src/patterns/BasicPatterns.ts:116-134 | a laser fires the number of bullets its length allows |
| BasicPatterns.LaserLine | src/patterns/BasicPatterns.ts:116-134 | a laser of length L holds floor(L/5) bullets, all flying along the angle; bullet i starts 5i along it |
| BasicPatterns.CrossArm | src/patterns/BasicPatterns.ts:139-168 | one arm of the cross holds `thickness` bullets |
| BasicPatterns.Cross | src/patterns/BasicPatterns.ts:139-168 | a cross fires four arms of `thickness` bullets |
| BasicPatterns.CrossShape | src/patterns/BasicPatterns.ts:139-168 | bullet i of arm a flies in arm a's cardinal direction (right, left, down, up) at the given speed, offset sideways by (i - thickness/2)·10 |
| BasicPatterns.ArmShot | src/patterns/BasicPatterns.ts:153-166 | bullet i of one arm is that cardinal shot |
| BasicPatterns.Petal | src/patterns/BasicPatterns.ts:173-193 | each petal holds five bullets |
| BasicPatterns.Flower | src/patterns/BasicPatterns.ts:173-193 | a flower fires five bullets per petal |
| BasicPatterns.FlowerShape | src/patterns/BasicPatterns.ts:173-193 | bullet j of petal i starts at the centre with speed speed·(1 + 0.1j); within a petal the speed strictly grows when the base speed is positive |
| BasicPatterns.RingCircle | src/patterns/BasicPatterns.ts:198-212 | ring q is a circle of bulletsPerRing bullets |
| BasicPatterns.Ring | src/patterns/BasicPatterns.ts:198-212 | a ring pattern fires rings × bulletsPerRing bullets |
| BasicPatterns.RingShape | src/patterns/BasicPatterns.ts:198-212 | bullet i of ring q flies at 2π(i/perRing + q/rings) with speed baseSpeed + 0.5q |
| BasicPatterns.Vortex | src/patterns/BasicPatterns.ts:217-237 | a vortex fires one bullet per count |
| BasicPatterns.VortexTangent | src/patterns/BasicPatterns.ts:217-237 | bullet i starts on the vortex spiral (the first at the centre) and flies a quarter turn past its spiral angle, at the given speed |
| SpellPatterns.Phase | src/patterns/SpellPatterns.ts:45 | floor(time / period) mod k is a phase below k |
| SpellPatterns.Icicle | src/patterns/SpellPatterns.ts:12-33 | an icicle fires three bullets or none |
| SpellPatterns.IcicleShots | src/patterns/SpellPatterns.ts:12-33 | an icicle fires exactly three bullets from (column, 0) when its draw is below its threshold, and none otherwise |
| SpellPatterns.IcicleFallShape | src/patterns/SpellPatterns.ts:12-33 | icicle fall fires a multiple of three bullets, at most 24, all from the top edge strictly inside the field's width (0 < x < GAME_WIDTH) and falling downward: straight at 3 or slanted by ±0.1 at 2.5 |
| SpellPatterns.IcicleFallQuiet | src/patterns/SpellPatterns.ts:12-33 | when every draw is at least 0.1, nothing falls |
| SpellPatterns.PerfectFreezeCount | src/patterns/SpellPatterns.ts:39-64 | outside the first 50 ms of every 500 nothing is fired; inside, phases 0, 1 and 2 fire 16, 24 and 30 bullets |
| SpellPatterns.PerfectFreezeDoubleRing | src/patterns/SpellPatterns.ts:39-64 | in phase 1 the second ring of 12 is the first turned by π/12 and slowed from 2.5 to 1.5 |
| SpellPatterns.LotusLayer | src/patterns/SpellPatterns.ts:70-111 | each layer of a lotus petal holds three bullets |
| SpellPatterns.LotusPetal | src/patterns/SpellPatterns.ts:70-111 | each lotus petal holds nine bullets |
| SpellPatterns.RainbowLotus | src/patterns/SpellPatterns.ts:70-111 | the lotus fires 72 bullets in the first 50 ms of every 800, and nothing otherwise |
| SpellPatterns.RainbowLotusShot | src/patterns/SpellPatterns.ts:70-111 | bullet s of layer l of petal i flies at the petal angle + (s - 1)·0.2 rad with speed 1.5 + 0.5l |
| SpellPatterns.TigerDragon | src/patterns/SpellPatterns.ts:117-148 | the dragon fires 20 bullets in the first 50 ms of every 200, and nothing otherwise |
| SpellPatterns.TigerDragonShot | src/patterns/SpellPatterns.ts:117-148 | bullet j of arm i starts 10j along the arm (the first at the centre) and flies at the arm angle + π/4, speed 2.5 |
| SpellPatterns.FiveElementsCount | src/patterns/SpellPatterns.ts:154-181 | outside its window nothing is fired; inside, the element floor(time/2000) mod 5 fires 5, 10, 25, 12 or 36 bullets |
| SpellPatterns.FlareWindowNested | src/patterns/SpellPatterns.ts:193-206 | every 1200 ms window lies inside a 400 ms window |
| SpellPatterns.RoyalFlareCount | src/patterns/SpellPatterns.ts:187-210 | royal flare fires 40 ring bullets in the first 50 ms of every 400, plus a cross of 20 in the first 50 ms of every 1200, and nothing else |
| SpellPatterns.SpellCardFallback | src/patterns/SpellPatterns.ts:215-246 | an unknown spell name fires the default circle of 12 at speed 2 rotated by time·0.001, on every call |
| SpellPatterns.SpellCardDeterministic | src/patterns/SpellPatterns.ts:215-246 | every spell except icicle fall ignores the random draws |
| SpellPatterns.SpellCardSilent | src/patterns/SpellPatterns.ts:215-246 | each named spell other than icicle fall is silent outside its firing window (500, 800, 200, 600 and 400 ms) |
| SpellPatterns.ExecuteSpellCard | src/patterns/SpellPatterns.ts:215-246 | executeSpellCard puts exactly the chosen spell's shots into the enemy pool, in order, and leaves the player pool alone |
| BulletManager.ActiveCount | src/systems/BulletManager.ts:129-136 | the active count never exceeds the pool size |
| BulletManager.FirstInactive | src/systems/BulletManager.ts:140 | the index found is the first inactive slot, or the pool's length when every slot is active |
| BulletManager.CullPlayer | src/systems/BulletManager.ts:38-44 | culling player bullets keeps the pool's size |
| BulletManager.CullEnemy | src/systems/BulletManager.ts:47-53 | culling enemy bullets keeps the pool's size |
| BulletManager.Cleared | src/systems/BulletManager.ts:98-116 | clearing keeps the pool's size |
| BulletManager.BulletManager.constructor | src/systems/BulletManager.ts:19-34 | both pools start empty, within the cap |
| BulletManager.BulletManager.GetActiveEnemyBulletCount | src/systems/BulletManager.ts:129-136 | the loop counts exactly the active enemy bullets |
| BulletManager.BulletManager.GetPlayerBullet | src/systems/BulletManager.ts:139-153 | reuses the first inactive player bullet, or appends a new one when all are active |
| BulletManager.BulletManager.GetEnemyBullet | src/systems/BulletManager.ts:155-169 | reuses the first inactive enemy bullet, or appends a new one when all are active |
| BulletManager.BulletManager.CreatePlayerBullet | src/systems/BulletManager.ts:57-70 | the acquired slot becomes an active, visible bullet at (x, y) with velocity dir·PLAYER_SPEED·60 |
| BulletManager.BulletManager.CreateEnemyBullet | src/systems/BulletManager.ts:73-95 | nothing happens at the cap; otherwise the acquired slot becomes an active bullet with velocity dir·speed·60; the pool stays within the cap |
| BulletManager.BulletManager.Emit | src/systems/BulletManager.ts:73-95 | emitting a pattern is createEnemyBullet for each of its shots, in order |
| BulletManager.BulletManager.ReturnPlayerBullet | src/systems/BulletManager.ts:171-176 | only that slot changes: it becomes inactive, invisible and at rest |
| BulletManager.BulletManager.ReturnEnemyBullet | src/systems/BulletManager.ts:178-183 | only that slot changes: it becomes inactive, invisible and at rest |
| BulletManager.BulletManager.Update | src/systems/BulletManager.ts:36-54 | the new pools are the culled old pools |
| BulletManager.BulletManager.ClearEnemyBullets | src/systems/BulletManager.ts:98-116 | the enemy pool becomes the cleared old pool; the player pool is untouched |
| BulletManager.AcquireSpec | src/systems/BulletManager.ts:139-169 | the pool grows by one fresh sprite exactly when every slot is active; otherwise the first inactive slot is handed out and the pool is unchanged |
| BulletManager.EnemyBulletCreated | src/systems/BulletManager.ts:73-95 | at the cap the pool is unchanged; below it one more bullet is active, placed and aimed as asked in the first free slot (keeping that slot's old grazed mark), and every other slot is unchanged |
| BulletManager.PoolStaysCapped | src/systems/BulletManager.ts:29-33 | the enemy pool never grows past MAX_BULLETS sprites, so the group's maxSize is never reached |
| BulletManager.ShotsFillUpToCap | src/systems/BulletManager.ts:81-83 | after any burst, the active count is the old count plus the shots, saturating at MAX_BULLETS |
| BulletManager.AfterShotsConcat | src/systems/BulletManager.ts:73-95 | firing a then b is firing a + b |
| BulletManager.PlayerBulletCreated | src/systems/BulletManager.ts:57-70 | one more player bullet is active, in the first free slot, moving along dir at PLAYER_SPEED·60; every other slot is unchanged |
| BulletManager.PlayerCull | src/systems/BulletManager.ts:38-44 | a player bullet stays active exactly when it was active and inside the top, left and right margins; the bottom edge is never checked |
| BulletManager.EnemyCull | src/systems/BulletManager.ts:47-53 | an enemy bullet stays active exactly when it was active and inside the bottom, left and right margins; the top edge is never checked |
| BulletManager.ClearedSpec | src/systems/BulletManager.ts:98-116 | after clearing no enemy bullet is active and the size is kept; every bullet that was active is returned (invisible, at rest, in place, its grazed mark kept) and every other bullet is untouched |
| BulletManager.ReturnedSpec | src/systems/BulletManager.ts:171-183 | returning a bullet lowers the active count by one when it was active, and no other slot changes |
| Player.Clamp | src/entities/Player.ts:78-79 | the clamped value lies within [lo, hi]; it is v inside the range, lo below it and hi above it |
| Player.Player.constructor | src/entities/Player.ts:22-43 | the player starts at the given point, at rest, not invincible, with no shot fired |
| Player.Player.HandleMovement | src/entities/Player.ts:52-83 | the velocity follows the keys at the focused or normal speed, the position is clamped to [16, edge - 16], and the hitbox shows exactly while focused |
| Player.Player.Shoot | src/entities/Player.ts:94-117 | the volley for the current power goes into the player pool; the enemy pool is untouched |
| Player.Player.HandleShooting | src/entities/Player.ts:85-92 | with the shot key held and at least SHOT_INTERVAL since the last shot, a volley is fired and the time recorded; otherwise nothing changes |
| Player.Player.Update | src/entities/Player.ts:45-50 | movement then shooting: the position is clamped to the field, the velocity is the steered one, the hitbox shows while focused, a due volley is fired from the new position and sets the last shot time, the enemy pool and invincibility are untouched; reports the bomb key press that handleBomb acts on |
| Player.Player.MakeInvincible | src/entities/Player.ts:129-150 | the player becomes invincible with its end timer pending; nothing else changes |
| Player.Player.InvincibilityEnds | src/entities/Player.ts:145-148 | the timer's callback clears invincibility; nothing else changes |
| Player.Player.HitboxRadius | src/entities/Player.ts:152-154 | the hitbox radius is positive and below 10 |
| Player.SteerSpec | src/entities/Player.ts:61-73 | on each axis the later key wins; diagonals are scaled by 0.707 on both axes, single axes move at full speed, and the direction never exceeds unit length |
| Player.VolleySpec | src/entities/Player.ts:94-117 | a volley has 1, 3, 5 or 7 bullets for power below 25, 50, 75 and above; the centre bullet goes straight up from 20 above the player; every bullet climbs, and side bullets come in mirrored pairs |
| Player.AfterVolleyConcat | src/entities/Player.ts:94-117 | firing s then t is firing s + t |
| Player.VolleyActivates | src/systems/BulletManager.ts:57-70 | each shot of a volley activates one more player bullet; the player pool has no cap |
| GameScene.GameScene.constructor | src/scenes/GameScene.ts:41-93 | a run starts at score 0, 3 lives, 3 bombs, power 0, graze 0, unpaused, with difficulty and stage defaulting to NORMAL and 1, and the player at (GAME_WIDTH/2, GAME_HEIGHT - 80); difficulty and stage are `const` fields, so no later method of the scene or of any system changes them |
| GameScene.GameScene.AddScore | src/scenes/GameScene.ts:200-202 | the run after addScore is Scored of the old run |
| GameScene.GameScene.AddGraze | src/scenes/GameScene.ts:204-207 | the run after addGraze is Grazed of the old run |
| GameScene.GameScene.PlayerHit | src/scenes/GameScene.ts:209-221 | the run takes Hit; a surviving player that was not invincible becomes invincible with its timer started; the player's place, velocity, hitbox and last shot time are untouched |
| GameScene.GameScene.UseBomb | src/scenes/GameScene.ts:223-246 | with a bomb left, one bomb is spent and every enemy bullet cleared; without one nothing changes |
| GameScene.GameScene.TogglePause | src/scenes/GameScene.ts:174-184 | pausing flips and the run is unchanged |
| GameScene.StartIsSane | src/scenes/GameScene.ts:41-52 | a run starts within bounds, with 3 lives and 3 bombs, and not over |
| GameScene.HitSpec | src/scenes/GameScene.ts:209-221 | an invincible player is unaffected; otherwise one life is lost, the game is over exactly when lives reach 0 or below, and a survivor loses 10 power but never goes below 0; bounds are kept |
| GameScene.BombSpec | src/scenes/GameScene.ts:223-226 | a bomb is spent only when one is left, so bombs never go negative; score is untouched |
| GameScene.GrazeSpec | src/scenes/GameScene.ts:204-207 | grazing n bullets adds n to graze and GRAZE_POINT·n to score, and nothing else |
| GameScene.ScoreSpec | src/scenes/GameScene.ts:200-202 | addScore adds exactly the points and changes nothing else |
| Enemy.Enemy.constructor | src/entities/Enemy.ts:38-57 | a new enemy has the configuration's kind, hp (also its maxHp) and score |
| Enemy.Enemy.Update | src/entities/Enemy.ts:59-78 | the new state is Stepped of the old one, and the pool receives exactly the shots of that step |
| Enemy.Enemy.Advance | src/entities/Enemy.ts:60-63 | moveTime grows by delta and the movement pattern is applied |
| Enemy.Enemy.FireIfDue | src/entities/Enemy.ts:66-69 | more than shootInterval after the last shot, the enemy shoots and records the time; otherwise nothing changes |
| Enemy.Enemy.ExecuteMovement | src/entities/Enemy.ts:80-110 | the new state is Moved of the old one |
| Enemy.Enemy.Shoot | src/entities/Enemy.ts:112-162 | the pool receives exactly the shots of the enemy's bullet pattern from its position |
| Enemy.Enemy.TakeDamage | src/entities/Enemy.ts:164-176 | hp falls by the damage; at or below zero the enemy dies and its score is added |
| Enemy.Enemy.Die | src/entities/Enemy.ts:178-199 | the enemy's score is added once and it is removed (inactive) |
| Enemy.Enemy.SetMovePattern | src/entities/Enemy.ts:229-231 | only the movement pattern changes |
| Enemy.Enemy.SetBulletPattern | src/entities/Enemy.ts:233-235 | only the bullet pattern changes |
| Enemy.Enemy.SetShootInterval | src/entities/Enemy.ts:237-239 | only the shot interval changes |
| Enemy.ZigzagSpec | src/entities/Enemy.ts:103-109 | the zigzag velocity is ±100, +100 for the first half-second, flipping every 500 ms with period 1000 |
| Enemy.MovedSpec | src/entities/Enemy.ts:80-110 | straight, wave and zigzag set vy = moveSpeed·60 and keep the position (straight keeps vx, wave sets vx = sin(moveTime·0.002)·100, zigzag sets the zigzag vx); circle puts the enemy 100 from (192, 100) at angle moveTime·0.002 and keeps the velocity; nothing else changes |
| Enemy.SteppedSpec | src/entities/Enemy.ts:59-78 | a step adds delta to moveTime, keeps hp, score, interval and patterns, records the shot time exactly when it shoots, and leaves the enemy active exactly when it was active and is still within bounds |
| Enemy.ShotsSpacedOut | src/entities/Enemy.ts:66-69 | two successive shots are more than shootInterval apart |
| Enemy.AimedAndUnknownShots | src/entities/Enemy.ts:112-131 | 'none' and every unknown pattern fire nothing; 'aimed' fires one bullet at speed 3 toward the player |
| Enemy.SpreadShots | src/entities/Enemy.ts:132-145 | 'spread' fires five bullets at π/2 + kπ/12 for k = -2..2, speed 3 |
| Enemy.CircleShots | src/entities/Enemy.ts:146-160 | 'circle' fires twelve bullets at 2πi/12, speed 1.5 |
| Enemy.DamagedSpec | src/entities/Enemy.ts:164-176 | hp falls by exactly the damage; at or below zero the enemy goes inactive and scores its value; otherwise it scores nothing |
| Enemy.TwoHits | src/entities/Enemy.ts:164-176 | an enemy with hp 10 survives 6 damage and dies on 5 more, scoring once |
| Enemy.HalfDamageNeverKills | src/systems/CollisionSystem.ts:111 | the contact damage hp·0.5 never kills an enemy with positive hp |
| EnemyManager.WaveSpawns | src/systems/EnemyManager.ts:76-97 | 'wave' and 'circle' waves create `count` enemies at once; other patterns create none now |
| EnemyManager.WaveTimers | src/systems/EnemyManager.ts:99-122 | 'spiral' and 'random' waves schedule `count` delayed creations; other patterns schedule none |
| EnemyManager.CountActive | src/systems/EnemyManager.ts:231-233 | the group's length never exceeds the number of enemies made |
| EnemyManager.EnemyManager.constructor | src/systems/EnemyManager.ts:38-46 | a manager starts with no enemies, no stage and nothing spawned or pending |
| EnemyManager.EnemyManager.StartStage | src/systems/EnemyManager.ts:67-71 | the stage becomes current, its clock starts now and no wave is recorded; pending calls are kept |
| EnemyManager.EnemyManager.CreateEnemy | src/systems/EnemyManager.ts:126-143 | one new enemy is added, in the state Created gives for the spawn and difficulty |
| EnemyManager.EnemyManager.CreateAll | src/systems/EnemyManager.ts:79-95 | the enemies made are exactly the spawns, in order, each new |
| EnemyManager.EnemyManager.SpawnWave | src/systems/EnemyManager.ts:73-124 | a wave creates its immediate enemies and schedules its delayed ones, in order |
| EnemyManager.EnemyManager.SpawnBoss | src/systems/EnemyManager.ts:145-195 | with a stage, one new boss is added at (192, -50), circling and firing circles every 2000 ms; without one nothing happens |
| EnemyManager.EnemyManager.GetActiveEnemyCount | src/systems/EnemyManager.ts:231-233 | counts the active enemies |
| EnemyManager.EnemyManager.Update | src/systems/EnemyManager.ts:48-65 | without a stage nothing happens; otherwise every wave whose time has come and that has not spawned is spawned in index order and recorded, and then a boss is added exactly when the stage has run its duration and no enemy was active |
| EnemyManager.EnemyManager.SpawnBossIfDue | src/systems/EnemyManager.ts:62-64 | a boss is added exactly when elapsed ≥ duration and no enemy is active |
| EnemyManager.EnemyManager.SpawnDue | src/systems/EnemyManager.ts:54-59 | after the wave loop every reached wave is recorded, and the enemies and timers added are those of the due waves, in order |
| EnemyManager.EnemyManager.SpawnStep | src/systems/EnemyManager.ts:55-58 | one turn of the wave loop keeps the loop's invariant for one more wave |
| EnemyManager.EnemyManager.SpawnFor | src/systems/EnemyManager.ts:56-57 | a due wave spawns and is recorded, keeping the loop's invariant |
| EnemyManager.EnemyManager.RunPending | src/systems/EnemyManager.ts:102-119 | a delayed call runs once: it is removed and its enemy created, the random x being the draw |
| EnemyManager.EnemyManager.UpdateEnemies | src/systems/EnemyManager.ts:42-45 | each active enemy takes one step in group order (the states are StepAll of the old ones), and the pool receives all their shots in that order |
| EnemyManager.EnemyManager.UpdateOne | src/systems/EnemyManager.ts:42-45 | enemy i's turn extends the loop's invariant by one enemy |
| EnemyManager.CreatedAreActive | src/systems/EnemyManager.ts:126-143 | every enemy created is active, so the group grows by the number of spawns |
| EnemyManager.WaveXSpec | src/systems/EnemyManager.ts:79-82 | a 'wave' row places its enemies strictly inside the screen, left to right, GAME_WIDTH/(count + 1) apart |
| EnemyManager.WaveSpawnsSpec | src/systems/EnemyManager.ts:76-97 | a 'wave' enemy comes at its row position at y = -30, moving straight and firing aimed shots; a 'circle' enemy comes on the ring of 80 around (192, 50), circling and firing spreads |
| EnemyManager.WaveTimersSpec | src/systems/EnemyManager.ts:99-122 | a 'spiral' enemy is due 300i ms later at its spiral x, weaving and firing aimed shots; a 'random' one is due 500i ms later at a drawn x, zigzagging and firing spreads; both at y = -30 |
| EnemyManager.RandomSpawnInside | src/systems/EnemyManager.ts:117 | a random spawn's x is the draw, within [50, GAME_WIDTH - 50] |
| EnemyManager.ConfigForSpec | src/systems/EnemyManager.ts:197-225 | book spirits are elites (50 hp, 500 points); fairies and every unknown type are basic (10 hp, 100 points) |
| EnemyManager.CreatedSpec | src/systems/EnemyManager.ts:126-143 | a created enemy is active where the spawn says, with hp scaled by the difficulty but maxHp unscaled: below full on EASY, full on NORMAL, above full on HARD and LUNATIC |
| EnemyManager.BossSpec | src/systems/EnemyManager.ts:145-165 | the boss has the stage's hp scaled by the difficulty, 10000 points, circle movement and bullets, and a 2000 ms interval |
| EnemyManager.EmptyGroup | src/systems/EnemyManager.ts:231-233 | the group's length is 0 exactly when none of the enemies is active |
| EnemyManager.UpdateArrivals | src/systems/EnemyManager.ts:48-65 | the enemies one update creates are in the states Arrivals lists: one per immediate spawn of a due wave, in wave order, then the boss when the stage has run its duration, nothing spawned and the group was empty |
| EnemyManager.BossReturns | src/systems/EnemyManager.ts:62-64 | past the duration a boss is due exactly when no enemy is active, whatever spawned before; pending spawns do not count |
| EnemyManager.ReachedSpec | src/systems/EnemyManager.ts:54-59 | a wave is recorded by the update that reaches it exactly when its spawn time has come |
| EnemyManager.UpdatesSpawnOnce | src/systems/EnemyManager.ts:54-59 | two updates spawn together what one later update would: each wave is due at one of them at most, and at one of them exactly when the later update alone would spawn it (none twice, none skipped); the spawn and timer counts add up |
| CollisionSystem.NearIsDistance | src/systems/CollisionSystem.ts:153-160 | the squared comparison Near holds exactly when the distance between the points is below the threshold, as checkCollision compares it |
| CollisionSystem.BulletHitStep | src/systems/CollisionSystem.ts:44-60 | one bullet against one enemy changes what is in the pools, never their sizes or the player's place |
| CollisionSystem.BulletHitsUpTo | src/systems/CollisionSystem.ts:43-61 | the inner loop keeps the pools' sizes |
| CollisionSystem.PlayerBulletStep | src/systems/CollisionSystem.ts:39-64 | a turn of the outer loop keeps the pools' sizes |
| CollisionSystem.PlayerBulletsUpTo | src/systems/CollisionSystem.ts:35-65 | the player-bullet sweep keeps the pools' sizes |
| CollisionSystem.EnemyBulletStep | src/systems/CollisionSystem.ts:73-95 | one enemy bullet against the player keeps the pools' sizes |
| CollisionSystem.EnemyBulletsUpTo | src/systems/CollisionSystem.ts:67-96 | the enemy-bullet sweep keeps the pools' sizes; which bullets it deactivates is EnemyBulletsSpec |
| CollisionSystem.RamStep | src/systems/CollisionSystem.ts:103-114 | one enemy against the player keeps the pools' sizes |
| CollisionSystem.RamsUpTo | src/systems/CollisionSystem.ts:98-115 | the ramming sweep keeps the pools' sizes; which enemies it damages is RamsSpec |
| CollisionSystem.GrazeCount | src/systems/CollisionSystem.ts:117-151 | no more bullets are grazed than there are |
| CollisionSystem.GrazeStep | src/systems/CollisionSystem.ts:121-149 | one graze check keeps the pools' sizes |
| CollisionSystem.GrazesUpTo | src/systems/CollisionSystem.ts:117-151 | the graze sweep keeps the pools' sizes |
| CollisionSystem.CollisionSystem.constructor | src/systems/CollisionSystem.ts:11-13 | the system works on the given scene |
| CollisionSystem.CollisionSystem.Update | src/systems/CollisionSystem.ts:15-33 | without an enemy manager the scene, its bullets and its player are unchanged; otherwise the objects end as Collide of their old snapshot; the player's velocity, hitbox and last shot time are untouched |
| CollisionSystem.CollisionSystem.CheckPlayerBulletsVsEnemies | src/systems/CollisionSystem.ts:35-65 | the objects end as the player-bullet sweep of their old snapshot |
| CollisionSystem.CollisionSystem.HitEnemiesWith | src/systems/CollisionSystem.ts:43-61 | the objects end as the inner loop of one bullet against every enemy |
| CollisionSystem.CollisionSystem.HitEnemy | src/systems/CollisionSystem.ts:44-60 | the objects end as one bullet against one enemy |
| CollisionSystem.CollisionSystem.CheckEnemyBulletsVsPlayer | src/systems/CollisionSystem.ts:67-96 | the objects end as the enemy-bullet sweep (nothing when invincible at the start); the player's velocity, hitbox and last shot time are untouched |
| CollisionSystem.CollisionSystem.CheckEnemiesVsPlayer | src/systems/CollisionSystem.ts:98-115 | the objects end as the ramming sweep (nothing when invincible at the start); the player's velocity, hitbox and last shot time are untouched |
| CollisionSystem.CollisionSystem.Ram | src/systems/CollisionSystem.ts:103-114 | the objects end as one enemy against the player; the player's velocity, hitbox and last shot time are untouched |
| CollisionSystem.CollisionSystem.CheckGraze | src/systems/CollisionSystem.ts:117-151 | the objects end as the graze sweep |
| CollisionSystem.GrazesUpToSpec | src/systems/CollisionSystem.ts:117-151 | the graze sweep marks exactly the grazable bullets (active, not yet grazed, closer than 20), adds their number to graze and GRAZE_POINT per bullet to score, and changes nothing else |
| CollisionSystem.NothingGrazable | src/systems/CollisionSystem.ts:121-125 | when no bullet is grazable the count is 0 |
| CollisionSystem.GrazeIdempotent | src/systems/CollisionSystem.ts:124-136 | a bullet is grazed at most once: a second sweep with the player in place changes nothing |
| CollisionSystem.EnemyBulletsSpec | src/systems/CollisionSystem.ts:67-96 | the enemy-bullet sweep deactivates exactly the active bullets within radius + 4 of the player and leaves every other bullet, the player's bullets, the enemies and the player's position as they were |
| CollisionSystem.RamsSpec | src/systems/CollisionSystem.ts:98-115 | the ramming sweep damages exactly the active enemies within 20 of the player, each by half its hp, and leaves every other enemy, both bullet pools and the player's position as they were |
| CollisionSystem.BulletHitsSpec | src/systems/CollisionSystem.ts:43-61 | one player bullet damages every active enemy within 16 (it pierces) and is deactivated exactly when it hit one; lives, game over, invincibility and enemy bullets are untouched |
| CollisionSystem.PlayerBulletsKeepLives | src/systems/CollisionSystem.ts:35-65 | the player-bullet sweep leaves lives, game over and invincibility alone |
| CollisionSystem.GrazesKeepLives | src/systems/CollisionSystem.ts:117-151 | the graze sweep leaves lives, game over and invincibility alone |
| CollisionSystem.OneLifePerBulletSweep | src/systems/CollisionSystem.ts:67-96 | with two or more lives, the first hit makes the player invincible, so the sweep costs at most one life |
| CollisionSystem.OneLifePerRamSweep | src/systems/CollisionSystem.ts:98-115 | the same for ramming |
| CollisionSystem.OneLifePerFrame | src/systems/CollisionSystem.ts:15-33 | a frame's collisions cost at most one life while two or more are left, and none while invincible |
| CollisionSystem.LastLifeLostTwice | src/systems/CollisionSystem.ts:73-95 | on the last life, two bullets on the player take lives from 1 to -1, each hit ending the game |
| CollisionSystem.BulletHitsSettle | src/systems/CollisionSystem.ts:43-61 | one player bullet's loop keeps the run's bounds (it only adds score) |
| CollisionSystem.PlayerBulletsSettle | src/systems/CollisionSystem.ts:35-65 | the player-bullet sweep keeps the run's bounds |
| CollisionSystem.EnemyBulletsSettle | src/systems/CollisionSystem.ts:67-96 | the enemy-bullet sweep keeps the run's bounds, never undoes a game over and never lowers graze |
| CollisionSystem.RamsSettle | src/systems/CollisionSystem.ts:98-115 | the ramming sweep keeps the run's bounds |
| CollisionSystem.CollideSettles | src/systems/CollisionSystem.ts:15-33 | a frame's collisions keep the run within bounds, never undo a game over, never lower graze, and keep the pools' sizes |
| ItemManager.FirstFree | src/systems/ItemManager.ts:70 | the index found is the first inactive item, or the list's length when all are active |
| ItemManager.ItemManager.constructor | src/systems/ItemManager.ts:14-21 | a manager starts with no items |
| ItemManager.ItemManager.CreateItem | src/systems/ItemManager.ts:69-97 | the item list becomes Created of the old list |
| ItemManager.ItemManager.CollectItem | src/systems/ItemManager.ts:99-134 | the run takes the item's pickup and the item is put away |
| ItemManager.ItemManager.Update | src/systems/ItemManager.ts:23-67 | every item takes its turn, and the run collects exactly the collectable items, in order |
| ItemManager.PickupSpec | src/systems/ItemManager.ts:99-119 | power adds 1 up to 100 and 100 points; point adds 500; life and bomb add 1 up to 8; nothing else changes and bounds are kept |
| ItemManager.CollectSpec | src/systems/ItemManager.ts:23-67 | collecting keeps the run's bounds and never lowers score, power, lives or bombs |
| ItemManager.TendedSpec | src/systems/ItemManager.ts:26-66 | an inactive item is skipped; an active one keeps place and kind, gets the pull velocity, and stays active exactly when neither collected nor below GAME_HEIGHT + 20 |
| ItemManager.CollectedWerePulled | src/systems/ItemManager.ts:40-56 | a collected item (within 20) was also pulled toward the player (within 60) |
| ItemManager.NoneLeftInReach | src/systems/ItemManager.ts:55-63 | after an update no item within 20 of the player, or below the field, is still active |
| ItemManager.CollectOnce | src/systems/ItemManager.ts:55-57 | a second update with the player in place collects nothing more |
| ItemManager.CreatedSpec | src/systems/ItemManager.ts:69-97 | the new item is at (x, y), active and falling at 50; a slot is reused exactly when an inactive item exists, and every other item is unchanged |
| GameLoop.FindStage | src/scenes/GameScene.ts:141 | the stage found is in the list and has the id; none is found exactly when no stage has it |
| GameLoop.FindStageFirst | src/scenes/GameScene.ts:141 | the stage found is the first with the id |
| GameLoop.Game.constructor | src/scenes/GameScene.ts:41-93 | init and create build a fresh run and fresh systems on one scene |
| GameLoop.Game.StartStage | src/scenes/GameScene.ts:140-172 | the stage with the scene's (constant) stage number starts, with its clock at now, no wave recorded and the pending spawns kept; when there is none nothing happens |
| GameLoop.TickSettles | src/scenes/GameScene.ts:95-109 | a whole update, on values, keeps the run within bounds, never undoes a game over, never lowers graze, keeps the enemy pool's size, only appends enemies and leaves the player clamped to the field |
| GameLoop.Game.Update | src/scenes/GameScene.ts:95-109 | a paused scene changes nothing; otherwise the game is Ticked: the collision snapshot is Tick of the old one (player, bomb, culling, new enemies, items, collisions, in that order), the scheduler's bookkeeping is Scheduled, the items are tended, and the player's velocity and hitbox are as the keys set them and its last shot time is the frame's time exactly when it fired; the run stays settled |
| GameLoop.Game.Step | src/scenes/GameScene.ts:98-105 | the player's turn, then the managers and collisions, compose to Tick of the old snapshot (Ticked), with the player's velocity, hitbox and last shot time as its update set them, keeping the run settled |
| GameLoop.Game.ManagersAndCollisions | src/scenes/GameScene.ts:102-105 | once the player has moved, the snapshot becomes Collide of SystemsTurn of it with the arrivals; bookkeeping Scheduled, items tended, the player's velocity, hitbox and last shot time untouched, run settled |
| GameLoop.Game.PlayerPhase | src/scenes/GameScene.ts:99 | on the snapshot the player's update and bomb are PlayerTurn (clamped move, due volley at the run's power, bomb spent and enemy bullets cleared when one is left); the velocity is steered, the hitbox shows while focused, a volley sets the last shot time; the run stays settled |
| GameLoop.Game.SystemsPhase | src/scenes/GameScene.ts:102-104 | on the snapshot the bullet, enemy and item updates are SystemsTurn: both pools culled, the new enemies' states appended, the items collected; the items are tended and the bookkeeping is Scheduled; the run stays settled |
| GameLoop.Game.EnemyPhase | src/scenes/GameScene.ts:103 | enemyManager.update appends exactly the Arrivals states to the enemies' states and records the reached waves and the due timers |
| GameLoop.Game.CollisionPhase | src/scenes/GameScene.ts:105 | the snapshot becomes Collide of the old one, the player's velocity, hitbox and last shot time are untouched, and the run stays settled |
| GameLoop.Game.Frame | src/scenes/GameScene.ts:95-109 | a frame of a game that is over or paused changes nothing; any other frame is EnemiesTurn (timer, the enemies' own steps and shots) followed by Ticked (snapshot, bookkeeping, items, and the player's velocity, hitbox and last shot time), and keeps the run settled |
| GameLoop.Game.Advance | src/scenes/GameScene.ts:95-109 | a frame of a game neither over nor paused: Ticked from EnemiesTurn of the old snapshot, the player's velocity and hitbox as the keys set them and its last shot time moved to the frame's time exactly when it fired |
| GameLoop.Game.EnemiesPhase | src/systems/EnemyManager.ts:42-45 | the timer (when it fires while pending) and the enemies' own updates are EnemiesTurn on the snapshot; the last shot time is untouched |

## Left out

- Rendering, textures (`getTextureForType`), the hit, graze and bomb effect circles and their tweens, the stage title's tween, the HP bar (`createHpBar`, `updateHpBar`), the boss name text, the UI scene, `drawGrid` and the debug restart key: they draw and change no game state.
- The boss's entry tween (src/systems/EnemyManager.ts:168-173) moves the boss's y from -50 towards 100 over 2000 ms. The model does not move it: the boss stays where createEnemy and its circle movement put it, so the collision sweeps and the off-screen check see that position instead of the tweened one.
- Physics integration: velocities are modelled, but moving sprites by their velocity is Phaser's. A frame's positions are inputs.
- Fractional clock values: Phaser passes `time` and `delta` to `update` as floating-point milliseconds. The model's clock is whole milliseconds: every `time`, `delta`, `now`, `moveTime`, `lastShootTime`, `stageStartTime` and spawn time is an `int`. Frame times with a fractional part, and the rounding they would bring to the shot-interval, zigzag and wave-time comparisons, are not modelled.
- Floating point: reals are exact, and `cos`, `sin` and `atan2` are arbitrary functions. NaN appears only in the fan finding, as `None`.
- The stage data file: the stage list is an input to `GameLoop.Game.StartStage`.
- The timing of Phaser's delayed calls. Which pending spawn runs, and when the invincibility timer fires, are chosen by the caller (`EnemyManager.EnemyManager.RunPending`, `GameLoop.Game.Frame`). `startStage` runs when the title fade ends, which is also chosen by the caller.
- The switch to the game-over scene: `gameOver` is modelled only as the `over` flag.
- Group internals beyond `get`, and `destroy`. A destroyed enemy stays in the list as inactive, and the group's length is the number of active enemies.
- The player bullets' group `maxSize` of 100: the pool and the group are treated as one. A 101st simultaneous player bullet is not modelled; Phaser would leave it out of the group, and so out of culling and collisions.
- `createItem`'s branch for a missing sprite. `Group.get` always returns one, so `Created` models only the reuse-or-append path. Whether a sprite made by `get` has a physics body is not modelled.
- The accessors `getPlayer`, `getBulletManager`, `getPlayerBullets`, `getEnemyBullets`, `getEnemies` and `getItems`: they only return a field.
- `updateHitbox`: it moves the hitbox circle, which is drawn only.
- The 30% item-drop roll in `die`: its body is commented out, so it has no effect.
- Player.Player.HandleMovement: the player's `setCollideWorldBounds` is not modelled; only the explicit clamp is.
- BasicPatterns.Fan: models the corrected fan. The as-written one-bullet case is kept in BasicPatterns.FanAnglesAsWritten.

## Findings

| source | as written | input that shows it | evidently intended | confidence | as-written member | corrected member |
|---|---|---|---|---|---|---|
| src/patterns/BasicPatterns.ts:48-65 | the angle step divides by bulletCount - 1 | bulletCount = 1: the step is (end - start)/0, and the bullet's angle is NaN | a one-bullet fan fires along startAngle | not executed | BasicPatterns.FanOfOneHasNoAngle | BasicPatterns.FanEndpoints |
