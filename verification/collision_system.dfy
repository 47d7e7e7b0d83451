// Hit detection (src/systems/CollisionSystem.ts): once a frame, four sweeps
// in this order — player bullets against enemies, enemy bullets against the
// player, enemies against the player (ramming), then grazing.
//
// Everything a sweep reads or writes is gathered in a World value: the two
// bullet pools, the enemies' states, the run counters, the player's position
// and invincibility. Each sweep is a function on World, defined one bullet
// (or enemy) at a time so that the loop that runs it keeps
// `Snapshot(em) == <sweep of the first i>` as its invariant. Distances are
// compared squared: for a positive threshold t, sqrt(dx^2 + dy^2) < t exactly
// when dx^2 + dy^2 < t^2. Hit effects (circles and tweens) are not modelled.

module CollisionSystem {

  import opened Config
  import opened Wrappers
  import BulletManager
  import GameScene
  import Enemy
  import EnemyManager

  /** checkCollision: the two points are closer than `threshold`. */
  predicate Near(x1: real, y1: real, x2: real, y2: real, threshold: real) {
    (x1 - x2) * (x1 - x2) + (y1 - y2) * (y1 - y2) < threshold * threshold
  }

  /** Near is checkCollision's test that the distance between the points is
      below the threshold: for the distance d (the non-negative root of
      the squared one) and a non-negative threshold, Near holds exactly
      when d < threshold. */
  lemma NearIsDistance(x1: real, y1: real, x2: real, y2: real, threshold: real, d: real)
    requires 0.0 <= d && d * d == (x1 - x2) * (x1 - x2) + (y1 - y2) * (y1 - y2)
    requires 0.0 <= threshold
    ensures Near(x1, y1, x2, y2, threshold) <==> d < threshold
  {
    var dd, tt := d * d, threshold * threshold;
    if d < threshold {
      var dt := d * threshold;
      assert dd <= dt;
      assert dt < tt;
    } else {
      var td := threshold * d;
      assert tt <= td;
      assert td <= dd;
    }
  }

  /** setActive(false) and setVisible(false) on a bullet; its velocity is kept. */
  function Deactivated(b: BulletManager.Bullet): BulletManager.Bullet {
    b.(active := false, visible := false)
  }

  /** What the sweeps read and write. */
  datatype World = World(
    playerPool: seq<BulletManager.Bullet>,
    enemyPool: seq<BulletManager.Bullet>,
    enemies: seq<Enemy.EnemyState>,
    run: GameScene.RunState,
    px: real,
    py: real,
    invincible: bool,
    timerPending: bool)

  /** A sweep changes what is in the pools and the enemies, never how many
      there are, nor where the player is. */
  predicate SameShape(a: World, b: World) {
    |a.playerPool| == |b.playerPool| && |a.enemyPool| == |b.enemyPool| && |a.enemies| == |b.enemies| &&
    a.px == b.px && a.py == b.py
  }

  /** scene.playerHit(): the run takes the hit, and a surviving player that
      was not invincible becomes invincible with its timer started. */
  function Struck(w: World): World {
    var run := GameScene.Hit(w.run, w.invincible);
    w.(run := run,
       invincible := w.invincible || run.lives > 0,
       timerPending := w.timerPending || (!w.invincible && run.lives > 0))
  }

  // ------------------------------------------- player bullets against enemies

  /** Player bullet b, in slot i, against enemy j: an active enemy closer
      than 16 takes PLAYER_DAMAGE and the bullet is deactivated. */
  function BulletHitStep(u: World, b: BulletManager.Bullet, i: nat, j: nat): (r: World)
    requires i < |u.playerPool| && j < |u.enemies|
    ensures SameShape(r, u)
  {
    var e := u.enemies[j];
    if e.active && Near(b.x, b.y, e.x, e.y, 16.0) then
      var (d, points) := Enemy.Damaged(e, PLAYER_DAMAGE);
      u.(enemies := u.enemies[j := d],
         run := GameScene.Scored(u.run, points),
         playerPool := u.playerPool[i := Deactivated(b)])
    else u
  }

  /** Player bullet i, as the sweep found it, against the enemies before n. */
  function BulletHitsUpTo(v: World, i: nat, n: nat): (r: World)
    requires i < |v.playerPool| && n <= |v.enemies|
    ensures SameShape(r, v)
  {
    if n == 0 then v else BulletHitStep(BulletHitsUpTo(v, i, n - 1), v.playerPool[i], i, n - 1)
  }

  /** One turn of the outer loop: an inactive bullet is skipped. */
  function PlayerBulletStep(v: World, i: nat): (r: World)
    requires i < |v.playerPool|
    ensures SameShape(r, v)
  {
    if v.playerPool[i].active then BulletHitsUpTo(v, i, |v.enemies|) else v
  }

  function PlayerBulletsUpTo(w: World, m: nat): (r: World)
    requires m <= |w.playerPool|
    ensures SameShape(r, w)
  {
    if m == 0 then w else PlayerBulletStep(PlayerBulletsUpTo(w, m - 1), m - 1)
  }

  /** checkPlayerBulletsVsEnemies. */
  function PlayerBullets(w: World): World {
    PlayerBulletsUpTo(w, |w.playerPool|)
  }

  // ---------------------------------------------- enemy bullets against player

  /** One turn: an active enemy bullet closer than radius + 4 hits the player
      and is deactivated. */
  function EnemyBulletStep(v: World, radius: real, i: nat): (r: World)
    requires i < |v.enemyPool|
    ensures SameShape(r, v)
  {
    var b := v.enemyPool[i];
    if b.active && Near(b.x, b.y, v.px, v.py, radius + 4.0) then
      Struck(v).(enemyPool := v.enemyPool[i := Deactivated(b)])
    else v
  }

  function EnemyBulletsUpTo(w: World, radius: real, m: nat): (r: World)
    requires m <= |w.enemyPool|
    ensures SameShape(r, w)
  {
    if m == 0 then w else EnemyBulletStep(EnemyBulletsUpTo(w, radius, m - 1), radius, m - 1)
  }

  /** checkEnemyBulletsVsPlayer: nothing when the player is invincible as
      the sweep starts. */
  function ShotPlayer(w: World): World {
    if w.invincible then w else EnemyBulletsUpTo(w, HITBOX_RADIUS, |w.enemyPool|)
  }

  // ------------------------------------------------ enemies against the player

  /** One turn: an active enemy closer than 20 hits the player and then takes
      half its hp as damage. */
  function RamStep(v: World, j: nat): (r: World)
    requires j < |v.enemies|
    ensures SameShape(r, v)
  {
    var e := v.enemies[j];
    if e.active && Near(e.x, e.y, v.px, v.py, 20.0) then
      var u := Struck(v);
      var (d, points) := Enemy.Damaged(e, e.hp * 0.5);
      u.(enemies := u.enemies[j := d], run := GameScene.Scored(u.run, points))
    else v
  }

  function RamsUpTo(w: World, n: nat): (r: World)
    requires n <= |w.enemies|
    ensures SameShape(r, w)
  {
    if n == 0 then w else RamStep(RamsUpTo(w, n - 1), n - 1)
  }

  /** checkEnemiesVsPlayer: nothing when the player is invincible as the
      sweep starts. */
  function Rammed(w: World): World {
    if w.invincible then w else RamsUpTo(w, |w.enemies|)
  }

  // ------------------------------------------------------------------ grazing

  /** An active bullet not grazed yet and closer than 20 to the player. */
  predicate Grazable(b: BulletManager.Bullet, px: real, py: real) {
    b.active && !b.grazed && Near(b.x, b.y, px, py, 20.0)
  }

  /** How many bullets of the pool are grazable. */
  function GrazeCount(pool: seq<BulletManager.Bullet>, px: real, py: real): (n: nat)
    ensures n <= |pool|
  {
    if pool == [] then 0
    else GrazeCount(pool[..|pool| - 1], px, py) + (if Grazable(pool[|pool| - 1], px, py) then 1 else 0)
  }

  /** One turn: a grazable bullet is marked grazed and counts one graze. */
  function GrazeStep(v: World, i: nat): (r: World)
    requires i < |v.enemyPool|
    ensures SameShape(r, v)
  {
    var b := v.enemyPool[i];
    if Grazable(b, v.px, v.py) then
      v.(enemyPool := v.enemyPool[i := b.(grazed := true)], run := GameScene.Grazed(v.run, 1))
    else v
  }

  function GrazesUpTo(w: World, m: nat): (r: World)
    requires m <= |w.enemyPool|
    ensures SameShape(r, w)
  {
    if m == 0 then w else GrazeStep(GrazesUpTo(w, m - 1), m - 1)
  }

  /** checkGraze. */
  function Grazes(w: World): World {
    GrazesUpTo(w, |w.enemyPool|)
  }

  /** update: the four sweeps in order. */
  function Collide(w: World): World {
    Grazes(Rammed(ShotPlayer(PlayerBullets(w))))
  }

  class CollisionSystem {
    const scene: GameScene.GameScene

    constructor(scene: GameScene.GameScene)
      ensures this.scene == scene
    {
      this.scene := scene;
    }

    /** What the sweeps see of the scene, its bullets, its player and em's enemies. */
    ghost function Snapshot(em: EnemyManager.EnemyManager): World
      reads scene, scene.bullets, scene.player, em, em.enemies
    {
      World(scene.bullets.playerPool, scene.bullets.enemyPool, EnemyManager.States(em.enemies),
        scene.State(), scene.player.x, scene.player.y, scene.player.isInvincible, scene.player.invincibleTimerPending)
    }

    /** update: nothing without an enemy manager, otherwise the four sweeps. */
    method Update(em: Option<EnemyManager.EnemyManager>)
      requires em.Some? ==> em.value.Valid() && em.value.scene == scene
      modifies scene, scene.bullets, scene.player, if em.Some? then em.value.enemies else []
      ensures em.Some? ==> Snapshot(em.value) == Collide(old(Snapshot(em.value)))
      ensures em.None? ==>
        scene.State() == old(scene.State()) && scene.bullets.playerPool == old(scene.bullets.playerPool) &&
        scene.bullets.enemyPool == old(scene.bullets.enemyPool) && scene.player.isInvincible == old(scene.player.isInvincible)
      ensures em.None? ==> unchanged(scene, scene.bullets, scene.player)
      ensures scene.isPaused == old(scene.isPaused)
      ensures scene.player.Controls() == old(scene.player.Controls())
    {
      if em.None? {
        return;
      }
      var m := em.value;
      CheckPlayerBulletsVsEnemies(m);
      CheckEnemyBulletsVsPlayer(m);
      CheckEnemiesVsPlayer(m);
      CheckGraze(m);
    }

    /** checkPlayerBulletsVsEnemies. */
    method CheckPlayerBulletsVsEnemies(em: EnemyManager.EnemyManager)
      requires em.Valid() && em.scene == scene
      modifies scene, scene.bullets, em.enemies
      ensures Snapshot(em) == PlayerBullets(old(Snapshot(em)))
      ensures scene.isPaused == old(scene.isPaused)
    {
      ghost var w0 := Snapshot(em);
      var i := 0;
      while i < |scene.bullets.playerPool|
        invariant 0 <= i <= |scene.bullets.playerPool| == |w0.playerPool|
        invariant Snapshot(em) == PlayerBulletsUpTo(w0, i)
        invariant scene.isPaused == old(scene.isPaused)
      {
        if scene.bullets.playerPool[i].active {
          HitEnemiesWith(em, i);
        }
        i := i + 1;
      }
    }

    /** The inner loop: player bullet i against every enemy in turn. */
    method HitEnemiesWith(em: EnemyManager.EnemyManager, i: nat)
      requires em.Valid() && em.scene == scene
      requires i < |scene.bullets.playerPool|
      modifies scene, scene.bullets, em.enemies
      ensures Snapshot(em) == BulletHitsUpTo(old(Snapshot(em)), i, |em.enemies|)
      ensures scene.isPaused == old(scene.isPaused)
    {
      ghost var v := Snapshot(em);
      var b := scene.bullets.playerPool[i];
      var j := 0;
      while j < |em.enemies|
        invariant 0 <= j <= |em.enemies|
        invariant Snapshot(em) == BulletHitsUpTo(v, i, j)
        invariant scene.isPaused == old(scene.isPaused)
      {
        HitEnemy(em, b, i, j);
        j := j + 1;
      }
    }

    /** One turn of the inner loop: bullet b, in slot i, against enemy j. */
    method HitEnemy(em: EnemyManager.EnemyManager, b: BulletManager.Bullet, i: nat, j: nat)
      requires em.Valid() && em.scene == scene
      requires i < |scene.bullets.playerPool| && j < |em.enemies|
      modifies scene, scene.bullets, em.enemies
      ensures Snapshot(em) == BulletHitStep(old(Snapshot(em)), b, i, j)
      ensures scene.isPaused == old(scene.isPaused)
    {
      var e := em.enemies[j];
      if e.active && Near(b.x, b.y, e.x, e.y, 16.0) {
        e.TakeDamage(PLAYER_DAMAGE);
        scene.bullets.playerPool := scene.bullets.playerPool[i := Deactivated(b)];
      }
    }

    /** checkEnemyBulletsVsPlayer. */
    method CheckEnemyBulletsVsPlayer(em: EnemyManager.EnemyManager)
      modifies scene, scene.bullets, scene.player
      ensures Snapshot(em) == ShotPlayer(old(Snapshot(em)))
      ensures scene.isPaused == old(scene.isPaused)
      ensures scene.player.Controls() == old(scene.player.Controls())
    {
      if scene.player.isInvincible {
        return;
      }
      ghost var w0 := Snapshot(em);
      var radius := scene.player.HitboxRadius();
      var i := 0;
      while i < |scene.bullets.enemyPool|
        invariant 0 <= i <= |scene.bullets.enemyPool| == |w0.enemyPool|
        invariant Snapshot(em) == EnemyBulletsUpTo(w0, radius, i)
        invariant scene.isPaused == old(scene.isPaused)
        invariant scene.player.Controls() == old(scene.player.Controls())
      {
        var b := scene.bullets.enemyPool[i];
        if b.active && Near(b.x, b.y, scene.player.x, scene.player.y, radius + 4.0) {
          scene.PlayerHit();
          scene.bullets.enemyPool := scene.bullets.enemyPool[i := Deactivated(b)];
        }
        i := i + 1;
      }
    }

    /** checkEnemiesVsPlayer. */
    method CheckEnemiesVsPlayer(em: EnemyManager.EnemyManager)
      requires em.Valid() && em.scene == scene
      modifies scene, scene.player, em.enemies
      ensures Snapshot(em) == Rammed(old(Snapshot(em)))
      ensures scene.isPaused == old(scene.isPaused)
      ensures scene.player.Controls() == old(scene.player.Controls())
    {
      if scene.player.isInvincible {
        return;
      }
      ghost var w0 := Snapshot(em);
      var j := 0;
      while j < |em.enemies|
        invariant 0 <= j <= |em.enemies|
        invariant Snapshot(em) == RamsUpTo(w0, j)
        invariant scene.isPaused == old(scene.isPaused)
        invariant scene.player.Controls() == old(scene.player.Controls())
      {
        Ram(em, j);
        j := j + 1;
      }
    }

    /** One turn of checkEnemiesVsPlayer's loop: enemy j against the player. */
    method Ram(em: EnemyManager.EnemyManager, j: nat)
      requires em.Valid() && em.scene == scene && j < |em.enemies|
      modifies scene, scene.player, em.enemies
      ensures Snapshot(em) == RamStep(old(Snapshot(em)), j)
      ensures scene.isPaused == old(scene.isPaused)
      ensures scene.player.Controls() == old(scene.player.Controls())
    {
      var e := em.enemies[j];
      if e.active && Near(e.x, e.y, scene.player.x, scene.player.y, 20.0) {
        scene.PlayerHit();
        e.TakeDamage(e.hp * 0.5);
      }
    }

    /** checkGraze. */
    method CheckGraze(em: EnemyManager.EnemyManager)
      modifies scene, scene.bullets
      ensures Snapshot(em) == Grazes(old(Snapshot(em)))
      ensures scene.isPaused == old(scene.isPaused)
    {
      ghost var w0 := Snapshot(em);
      var i := 0;
      while i < |scene.bullets.enemyPool|
        invariant 0 <= i <= |scene.bullets.enemyPool| == |w0.enemyPool|
        invariant Snapshot(em) == GrazesUpTo(w0, i)
        invariant scene.isPaused == old(scene.isPaused)
      {
        var b := scene.bullets.enemyPool[i];
        if b.active && !b.grazed && Near(b.x, b.y, scene.player.x, scene.player.y, 20.0) {
          scene.bullets.enemyPool := scene.bullets.enemyPool[i := b.(grazed := true)];
          scene.AddGraze(1);
        }
        i := i + 1;
      }
    }
  }

  // --------------------------------------------------------------- properties

  /** The graze sweep over the first m bullets marks exactly the grazable
      ones among them, adds exactly their number to graze (and GRAZE_POINT
      each to score), and changes nothing else. */
  lemma {:induction false} GrazesUpToSpec(w: World, m: nat)
    requires m <= |w.enemyPool|
    ensures var r := GrazesUpTo(w, m);
      r == w.(enemyPool := r.enemyPool, run := GameScene.Grazed(w.run, GrazeCount(w.enemyPool[..m], w.px, w.py))) &&
      forall i :: 0 <= i < |w.enemyPool| ==>
        r.enemyPool[i] == if i < m && Grazable(w.enemyPool[i], w.px, w.py) then w.enemyPool[i].(grazed := true) else w.enemyPool[i]
  {
    if m == 0 {
      assert w.enemyPool[..0] == [];
    } else {
      GrazesUpToSpec(w, m - 1);
      assert w.enemyPool[..m][..m - 1] == w.enemyPool[..m - 1];
    }
  }

  /** When no bullet is grazable, none counts. */
  lemma {:induction false} NothingGrazable(pool: seq<BulletManager.Bullet>, px: real, py: real)
    requires forall i :: 0 <= i < |pool| ==> !Grazable(pool[i], px, py)
    ensures GrazeCount(pool, px, py) == 0
  {
    if pool != [] {
      NothingGrazable(pool[..|pool| - 1], px, py);
    }
  }

  /** A bullet is grazed at most once: a second graze sweep with the player
      where it was finds nothing more to count. */
  lemma GrazeIdempotent(w: World)
    ensures Grazes(Grazes(w)) == Grazes(w)
  {
    var r := Grazes(w);
    GrazesUpToSpec(w, |w.enemyPool|);
    GrazesUpToSpec(r, |r.enemyPool|);
    assert r.enemyPool[..|r.enemyPool|] == r.enemyPool;
    NothingGrazable(r.enemyPool, r.px, r.py);
    assert Grazes(r).enemyPool == r.enemyPool;
  }

  /** Player bullet i against the first n enemies: each enemy j is damaged
      exactly when it was active and within 16 of the bullet (a bullet goes
      on through every enemy it overlaps), and the bullet is deactivated
      exactly when it hit one; lives and invincibility are untouched. */
  lemma {:induction false} BulletHitsSpec(v: World, i: nat, n: nat)
    requires i < |v.playerPool| && n <= |v.enemies|
    ensures var r := BulletHitsUpTo(v, i, n);
      var b := v.playerPool[i];
      (forall j :: 0 <= j < |v.enemies| ==>
        r.enemies[j] == if j < n && v.enemies[j].active && Near(b.x, b.y, v.enemies[j].x, v.enemies[j].y, 16.0)
          then Enemy.Damaged(v.enemies[j], PLAYER_DAMAGE).0 else v.enemies[j]) &&
      r.playerPool == (if exists j :: 0 <= j < n && v.enemies[j].active && Near(b.x, b.y, v.enemies[j].x, v.enemies[j].y, 16.0)
        then v.playerPool[i := Deactivated(b)] else v.playerPool) &&
      r.run.lives == v.run.lives && r.run.over == v.run.over && r.invincible == v.invincible &&
      r.enemyPool == v.enemyPool
  {
    if n > 0 {
      BulletHitsSpec(v, i, n - 1);
    }
  }

  /** The enemy-bullet sweep over the first m bullets deactivates exactly
      the active ones among them within radius + 4 of the player, and
      touches neither the player's bullets, nor the enemies, nor where the
      player is. */
  lemma {:induction false} EnemyBulletsSpec(w: World, radius: real, m: nat)
    requires m <= |w.enemyPool|
    ensures var r := EnemyBulletsUpTo(w, radius, m);
      (forall i :: 0 <= i < |w.enemyPool| ==>
        r.enemyPool[i] == if i < m && w.enemyPool[i].active && Near(w.enemyPool[i].x, w.enemyPool[i].y, w.px, w.py, radius + 4.0)
          then Deactivated(w.enemyPool[i]) else w.enemyPool[i]) &&
      r.playerPool == w.playerPool && r.enemies == w.enemies && r.px == w.px && r.py == w.py
  {
    if m > 0 {
      EnemyBulletsSpec(w, radius, m - 1);
    }
  }

  /** The ramming sweep over the first n enemies damages exactly the active
      ones among them within 20 of the player, each by half its hp, and
      touches neither bullet pool nor where the player is. */
  lemma {:induction false} RamsSpec(w: World, n: nat)
    requires n <= |w.enemies|
    ensures var r := RamsUpTo(w, n);
      (forall j :: 0 <= j < |w.enemies| ==>
        r.enemies[j] == if j < n && w.enemies[j].active && Near(w.enemies[j].x, w.enemies[j].y, w.px, w.py, 20.0)
          then Enemy.Damaged(w.enemies[j], w.enemies[j].hp * 0.5).0 else w.enemies[j]) &&
      r.playerPool == w.playerPool && r.enemyPool == w.enemyPool && r.px == w.px && r.py == w.py
  {
    if n > 0 {
      RamsSpec(w, n - 1);
    }
  }

  /** The player-bullet sweep leaves lives, game over and invincibility alone. */
  lemma {:induction false} PlayerBulletsKeepLives(w: World, m: nat)
    requires m <= |w.playerPool|
    ensures var r := PlayerBulletsUpTo(w, m);
      r.run.lives == w.run.lives && r.run.over == w.run.over && r.invincible == w.invincible
  {
    if m > 0 {
      PlayerBulletsKeepLives(w, m - 1);
      var v := PlayerBulletsUpTo(w, m - 1);
      if v.playerPool[m - 1].active {
        BulletHitsSpec(v, m - 1, |v.enemies|);
      }
    }
  }

  /** The graze sweep leaves lives, game over and invincibility alone. */
  lemma GrazesKeepLives(w: World)
    ensures var r := Grazes(w);
      r.run.lives == w.run.lives && r.run.over == w.run.over && r.invincible == w.invincible
  {
    GrazesUpToSpec(w, |w.enemyPool|);
  }

  /** While more than one life is left, the first bullet that reaches the
      player makes it invincible, so the bullet sweep costs at most one life. */
  lemma {:induction false} OneLifePerBulletSweep(w: World, radius: real, m: nat)
    requires m <= |w.enemyPool| && !w.invincible && w.run.lives >= 2
    ensures var r := EnemyBulletsUpTo(w, radius, m);
      (r.run.lives == w.run.lives && !r.invincible) || (r.run.lives == w.run.lives - 1 && r.invincible)
  {
    if m > 0 {
      OneLifePerBulletSweep(w, radius, m - 1);
    }
  }

  /** The same for the ramming sweep. */
  lemma {:induction false} OneLifePerRamSweep(w: World, n: nat)
    requires n <= |w.enemies| && !w.invincible && w.run.lives >= 2
    ensures var r := RamsUpTo(w, n);
      (r.run.lives == w.run.lives && !r.invincible) || (r.run.lives == w.run.lives - 1 && r.invincible)
  {
    if n > 0 {
      OneLifePerRamSweep(w, n - 1);
    }
  }

  /** A frame's collisions cost at most one life while two or more are left,
      and none while the player is invincible. */
  lemma OneLifePerFrame(w: World)
    ensures w.run.lives >= 2 ==> Collide(w).run.lives >= w.run.lives - 1
    ensures w.invincible ==> Collide(w).run.lives == w.run.lives
  {
    var a := PlayerBullets(w);
    PlayerBulletsKeepLives(w, |w.playerPool|);
    var b := ShotPlayer(a);
    if !a.invincible && a.run.lives >= 2 {
      OneLifePerBulletSweep(a, HITBOX_RADIUS, |a.enemyPool|);
    }
    var c := Rammed(b);
    if !b.invincible && b.run.lives >= 2 {
      OneLifePerRamSweep(b, |b.enemies|);
    }
    GrazesKeepLives(c);
  }

  /** On the last life nothing stops the sweep after the game-ending hit: two
      bullets on the player take lives from 1 to -1, each hit ending the game. */
  lemma LastLifeLostTwice(b: BulletManager.Bullet, w: World)
    requires b.active && b.x == w.px && b.y == w.py
    requires w.enemyPool == [b, b] && w.run.lives == 1 && !w.invincible
    ensures ShotPlayer(w).run.lives == -1 && ShotPlayer(w).run.over
  {
    assert Near(b.x, b.y, w.px, w.py, HITBOX_RADIUS + 4.0);
    assert EnemyBulletsUpTo(w, HITBOX_RADIUS, 0) == w;
    var v1 := EnemyBulletStep(w, HITBOX_RADIUS, 0);
    assert v1 == Struck(w).(enemyPool := [Deactivated(b), b]);
    assert v1.run.lives == 0 && v1.run.over && !v1.invincible;
    assert EnemyBulletsUpTo(w, HITBOX_RADIUS, 1) == v1;
    var v2 := EnemyBulletStep(v1, HITBOX_RADIUS, 1);
    assert v2 == Struck(v1).(enemyPool := [Deactivated(b), Deactivated(b)]);
    assert EnemyBulletsUpTo(w, HITBOX_RADIUS, 2) == v2;
  }

  /** Player bullet i against the first n enemies keeps the run settled: it
      only adds score. */
  lemma {:induction false} BulletHitsSettle(v: World, i: nat, n: nat)
    requires i < |v.playerPool| && n <= |v.enemies|
    ensures GameScene.Settles(v.run, BulletHitsUpTo(v, i, n).run)
  {
    if n > 0 {
      BulletHitsSettle(v, i, n - 1);
    }
  }

  lemma {:induction false} PlayerBulletsSettle(w: World, m: nat)
    requires m <= |w.playerPool|
    ensures GameScene.Settles(w.run, PlayerBulletsUpTo(w, m).run)
  {
    if m > 0 {
      PlayerBulletsSettle(w, m - 1);
      var v := PlayerBulletsUpTo(w, m - 1);
      if v.playerPool[m - 1].active {
        BulletHitsSettle(v, m - 1, |v.enemies|);
      }
    }
  }

  /** Each hit keeps power within [0, 100] and lives at most 8. */
  lemma {:induction false} EnemyBulletsSettle(w: World, radius: real, m: nat)
    requires m <= |w.enemyPool|
    ensures GameScene.Settles(w.run, EnemyBulletsUpTo(w, radius, m).run)
  {
    if m > 0 {
      EnemyBulletsSettle(w, radius, m - 1);
      GameScene.HitSpec(EnemyBulletsUpTo(w, radius, m - 1).run, EnemyBulletsUpTo(w, radius, m - 1).invincible);
    }
  }

  lemma {:induction false} RamsSettle(w: World, n: nat)
    requires n <= |w.enemies|
    ensures GameScene.Settles(w.run, RamsUpTo(w, n).run)
  {
    if n > 0 {
      RamsSettle(w, n - 1);
      GameScene.HitSpec(RamsUpTo(w, n - 1).run, RamsUpTo(w, n - 1).invincible);
    }
  }

  /** A frame's collisions keep the run within bounds, never undo a game
      over and never lower graze. */
  lemma CollideSettles(w: World)
    ensures GameScene.Settles(w.run, Collide(w).run)
    ensures SameShape(Collide(w), w)
  {
    var a := PlayerBullets(w);
    PlayerBulletsSettle(w, |w.playerPool|);
    var b := ShotPlayer(a);
    if !a.invincible {
      EnemyBulletsSettle(a, HITBOX_RADIUS, |a.enemyPool|);
    }
    var c := Rammed(b);
    if !b.invincible {
      RamsSettle(b, |b.enemies|);
    }
    GrazesUpToSpec(c, |c.enemyPool|);
  }
}
