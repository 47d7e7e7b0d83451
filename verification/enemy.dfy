// One enemy (src/entities/Enemy.ts): a movement pattern driven by moveTime,
// a shot timer with a strict threshold, per-pattern emissions, damage, and
// death with scoring. Destroying an enemy (its `destroy`) is modelled by
// `active := false`: Phaser's destroy clears the flag and removes the sprite
// from its group.
//
// The class updates its fields in place; State() is the value of all of them,
// and each method is specified by a function on that value.

module Enemy {

  import opened Config
  import opened Emissions
  import BasicPatterns
  import BulletManager
  import GameScene

  datatype EnemyType = Basic | Elite | Boss

  /** An EnemyConfig (its texture is presentation and is not modelled). */
  datatype EnemyConfig = EnemyConfig(kind: EnemyType, hp: real, score: int)

  datatype MovePattern = Straight | WaveMove | CircleMove | Zigzag

  /** Every field of an enemy. */
  datatype EnemyState = EnemyState(
    x: real, y: real, vx: real, vy: real,
    hp: real, maxHp: real, scoreValue: int,
    movePattern: MovePattern, moveSpeed: real, moveTime: int,
    shootInterval: int, lastShootTime: int, bulletPattern: string,
    active: bool)

  /** A new enemy at (x, y): the constructor and the field initialisers. */
  function Fresh(x: real, y: real, config: EnemyConfig): EnemyState {
    EnemyState(x, y, 0.0, 0.0, config.hp, config.hp, config.score, Straight, 2.0, 0, 1000, 0, "none", true)
  }

  /** The x-velocity of the zigzag: +100 in even half-seconds of moveTime, -100 in odd ones. */
  function ZigzagVx(moveTime: int): real {
    if (moveTime / 500) % 2 == 0 then 100.0 else -100.0
  }

  /** The angle `moveTime * 0.002` of the wave and circle movements. */
  function MoveAngle(moveTime: int): Angle {
    Rad(moveTime as real * 0.002)
  }

  /** executeMovement: the velocity rules, and the circle's direct placement
      on the circle of radius 100 around (GAME_WIDTH / 2, 100). */
  function Moved(trig: Trig, s: EnemyState): EnemyState {
    match s.movePattern
    case Straight => s.(vy := s.moveSpeed * 60.0)
    case WaveMove => s.(vy := s.moveSpeed * 60.0, vx := trig.sin(MoveAngle(s.moveTime)) * 100.0)
    case CircleMove =>
      var p := Along(trig, GAME_WIDTH as real / 2.0, 100.0, MoveAngle(s.moveTime), 100.0);
      s.(x := p.0, y := p.1)
    case Zigzag => s.(vy := s.moveSpeed * 60.0, vx := ZigzagVx(s.moveTime))
  }

  /** The shot timer's test: strictly more than shootInterval since the last shot. */
  predicate ShootsAt(time: int, s: EnemyState) {
    time - s.lastShootTime > s.shootInterval
  }

  /** Bullet i of the 'spread' pattern, i in [-2, 2]: angle pi/2 + i*pi/12. */
  function SpreadShot(trig: Trig, x: real, y: real, i: int): Shot {
    Toward(trig, x, y, Turn(0.25).Plus(Turn(i as real / 24.0)), ENEMY_SPEED_NORMAL)
  }

  /** The createEnemyBullet calls of one `shoot` from (x, y) with the player
      at (px, py). */
  function ShotsFor(trig: Trig, pattern: string, x: real, y: real, px: real, py: real): seq<Shot> {
    if pattern == "aimed" then [Toward(trig, x, y, Rad(trig.atan2(py - y, px - x)), ENEMY_SPEED_NORMAL)]
    else if pattern == "spread" then seq(5, k requires 0 <= k < 5 => SpreadShot(trig, x, y, k - 2))
    else if pattern == "circle" then BasicPatterns.Circle(trig, x, y, 12, ENEMY_SPEED_SLOW, Turn(0.0))
    else []
  }

  /** The removal test of `update`: more than 50 below the field or above it. */
  predicate OutOfBounds(y: real) {
    y > GAME_HEIGHT as real + 50.0 || y < -50.0
  }

  /** The state after moveTime += delta and executeMovement. */
  function Advanced(trig: Trig, s: EnemyState, delta: int): EnemyState {
    Moved(trig, s.(moveTime := s.moveTime + delta))
  }

  /** update(time, delta): advance, move, shoot when due, leave when out of bounds. */
  function Stepped(trig: Trig, s: EnemyState, time: int, delta: int): EnemyState {
    var m := Advanced(trig, s, delta);
    var f := if ShootsAt(time, m) then m.(lastShootTime := time) else m;
    if OutOfBounds(f.y) then f.(active := false) else f
  }

  /** The bullets an update fires, the player being at (px, py). */
  function StepShots(trig: Trig, s: EnemyState, time: int, delta: int, px: real, py: real): seq<Shot> {
    var m := Advanced(trig, s, delta);
    if ShootsAt(time, m) then ShotsFor(trig, m.bulletPattern, m.x, m.y, px, py) else []
  }

  /** takeDamage(d): the new state and the points die() adds to the score. */
  function Damaged(s: EnemyState, d: real): (EnemyState, int) {
    var hp := s.hp - d;
    if hp <= 0.0 then (s.(hp := hp, active := false), s.scoreValue) else (s.(hp := hp), 0)
  }

  class Enemy {
    const scene: GameScene.GameScene
    const kind: EnemyType
    var x: real
    var y: real
    /** The body's velocity, applied by the physics engine. */
    var vx: real
    var vy: real
    var hp: real
    var maxHp: real
    var scoreValue: int
    var movePattern: MovePattern
    var moveSpeed: real
    var moveTime: int
    var shootInterval: int
    var lastShootTime: int
    var bulletPattern: string
    var active: bool

    ghost function State(): EnemyState
      reads this
    {
      EnemyState(x, y, vx, vy, hp, maxHp, scoreValue, movePattern, moveSpeed, moveTime,
                 shootInterval, lastShootTime, bulletPattern, active)
    }

    constructor(scene: GameScene.GameScene, x0: real, y0: real, config: EnemyConfig)
      ensures State() == Fresh(x0, y0, config)
      ensures this.scene == scene && kind == config.kind
    {
      this.scene := scene;
      kind := config.kind;
      x, y := x0, y0;
      vx, vy := 0.0, 0.0;
      maxHp := config.hp;
      hp := config.hp;
      scoreValue := config.score;
      movePattern := Straight;
      moveSpeed := 2.0;
      moveTime := 0;
      shootInterval := 1000;
      lastShootTime := 0;
      bulletPattern := "none";
      active := true;
    }

    /** update(time, delta). */
    method Update(trig: Trig, time: int, delta: int)
      requires scene.bullets.Valid()
      modifies this, scene.bullets
      ensures State() == Stepped(trig, old(State()), time, delta)
      ensures scene.bullets.enemyPool == BulletManager.AfterShots(old(scene.bullets.enemyPool),
        StepShots(trig, old(State()), time, delta, scene.player.x, scene.player.y))
      ensures scene.bullets.playerPool == old(scene.bullets.playerPool)
      ensures scene.bullets.Valid()
    {
      Advance(trig, delta);
      FireIfDue(trig, time);
      if y > GAME_HEIGHT as real + 50.0 || y < -50.0 {
        active := false;
      }
    }

    /** The first steps of update: moveTime += delta, then executeMovement. */
    method Advance(trig: Trig, delta: int)
      modifies this
      ensures State() == Advanced(trig, old(State()), delta)
    {
      moveTime := moveTime + delta;
      ExecuteMovement(trig);
    }

    /** The shot timer of update: when it is due, shoot and restart it. */
    method FireIfDue(trig: Trig, time: int)
      requires scene.bullets.Valid()
      modifies this, scene.bullets
      ensures State() == if ShootsAt(time, old(State())) then old(State()).(lastShootTime := time) else old(State())
      ensures scene.bullets.enemyPool == BulletManager.AfterShots(old(scene.bullets.enemyPool),
        if ShootsAt(time, old(State())) then ShotsFor(trig, bulletPattern, x, y, scene.player.x, scene.player.y) else [])
      ensures scene.bullets.playerPool == old(scene.bullets.playerPool)
      ensures scene.bullets.Valid()
    {
      if time - lastShootTime > shootInterval {
        Shoot(trig);
        lastShootTime := time;
      }
    }

    /** executeMovement. */
    method ExecuteMovement(trig: Trig)
      modifies this
      ensures State() == Moved(trig, old(State()))
    {
      match movePattern
      case Straight =>
        vy := moveSpeed * 60.0;
      case WaveMove =>
        vy := moveSpeed * 60.0;
        vx := trig.sin(MoveAngle(moveTime)) * 100.0;
      case CircleMove =>
        var angle := MoveAngle(moveTime);
        var p := Along(trig, GAME_WIDTH as real / 2.0, 100.0, angle, 100.0);
        x := p.0;
        y := p.1;
      case Zigzag =>
        vy := moveSpeed * 60.0;
        vx := if (moveTime / 500) % 2 == 0 then 100.0 else -100.0;
    }

    /** shoot: nothing for 'none' (or any unknown pattern), otherwise the
        pattern's bullets from the enemy's position. */
    method Shoot(trig: Trig)
      requires scene.bullets.Valid()
      modifies scene.bullets
      ensures scene.bullets.enemyPool == BulletManager.AfterShots(old(scene.bullets.enemyPool),
        ShotsFor(trig, bulletPattern, x, y, scene.player.x, scene.player.y))
      ensures scene.bullets.playerPool == old(scene.bullets.playerPool)
      ensures scene.bullets.Valid()
    {
      if bulletPattern == "none" {
        return;
      }
      var bm := scene.bullets;
      bm.Emit(ShotsFor(trig, bulletPattern, x, y, scene.player.x, scene.player.y));
    }

    /** takeDamage(damage): hp falls by damage; at or below zero the enemy dies. */
    method TakeDamage(damage: real)
      modifies this, scene
      ensures State() == Damaged(old(State()), damage).0
      ensures scene.State() == GameScene.Scored(old(scene.State()), Damaged(old(State()), damage).1)
      ensures scene.isPaused == old(scene.isPaused)
    {
      hp := hp - damage;
      if hp <= 0.0 {
        Die();
      }
    }

    /** die: score the enemy once and destroy it. The 30% item-drop roll
        has no effect in the source and is not modelled. */
    method Die()
      modifies this, scene
      ensures State() == old(State()).(active := false)
      ensures scene.State() == GameScene.Scored(old(scene.State()), scoreValue)
      ensures scene.isPaused == old(scene.isPaused)
    {
      scene.AddScore(scoreValue);
      active := false;
    }

    method SetMovePattern(p: MovePattern)
      modifies this
      ensures State() == old(State()).(movePattern := p)
    {
      movePattern := p;
    }

    method SetBulletPattern(p: string)
      modifies this
      ensures State() == old(State()).(bulletPattern := p)
    {
      bulletPattern := p;
    }

    method SetShootInterval(interval: int)
      modifies this
      ensures State() == old(State()).(shootInterval := interval)
    {
      shootInterval := interval;
    }
  }

  // ---------------------------------------------------------------- properties

  /** The zigzag flips direction every 500 ms of moveTime: +100 for the first
      half-second, then alternating with period 1000. */
  lemma ZigzagSpec(m: int)
    ensures ZigzagVx(m) == 100.0 || ZigzagVx(m) == -100.0
    ensures 0 <= m < 500 ==> ZigzagVx(m) == 100.0
    ensures 500 <= m < 1000 ==> ZigzagVx(m) == -100.0
    ensures ZigzagVx(m + 500) == -ZigzagVx(m)
    ensures ZigzagVx(m + 1000) == ZigzagVx(m)
  {
    assert (m + 500) / 500 == m / 500 + 1;
    assert (m + 1000) / 500 == m / 500 + 2;
  }

  /** Straight, wave and zigzag set the y-velocity to moveSpeed * 60 and never
      move the enemy directly; straight keeps the x-velocity, wave sets it to
      sin(moveTime * 0.002) * 100, zigzag to ZigzagVx; circle places the
      enemy on its circle and keeps the velocity. Nothing else changes. */
  lemma MovedSpec(trig: Trig, s: EnemyState)
    ensures var m := Moved(trig, s);
      (s.movePattern != CircleMove ==> m.vy == s.moveSpeed * 60.0 && m.x == s.x && m.y == s.y) &&
      (s.movePattern == Straight ==> m.vx == s.vx) &&
      (s.movePattern == WaveMove ==> m.vx == trig.sin(MoveAngle(s.moveTime)) * 100.0) &&
      (s.movePattern == Zigzag ==> m.vx == ZigzagVx(s.moveTime)) &&
      (s.movePattern == CircleMove ==>
        m.vx == s.vx && m.vy == s.vy &&
        (m.x, m.y) == Along(trig, 192.0, 100.0, MoveAngle(s.moveTime), 100.0)) &&
      m.(x := s.x, y := s.y, vx := s.vx, vy := s.vy) == s
  {
  }

  /** One update adds delta to moveTime and keeps hp and score; it shoots
      exactly when time - lastShootTime > shootInterval (strictly), and then
      records the time; it deactivates the enemy exactly when it ends out of
      bounds, and never reactivates one. */
  lemma SteppedSpec(trig: Trig, s: EnemyState, time: int, delta: int)
    ensures var t := Stepped(trig, s, time, delta);
      t.moveTime == s.moveTime + delta &&
      t.hp == s.hp && t.maxHp == s.maxHp && t.scoreValue == s.scoreValue &&
      t.shootInterval == s.shootInterval && t.bulletPattern == s.bulletPattern && t.movePattern == s.movePattern &&
      (time - s.lastShootTime > s.shootInterval ==> t.lastShootTime == time) &&
      (time - s.lastShootTime <= s.shootInterval ==> t.lastShootTime == s.lastShootTime) &&
      (t.active <==> s.active && !OutOfBounds(t.y))
  {
  }

  /** After a shot at t1, the next shot comes at a time t2 with
      t2 - t1 > shootInterval. */
  lemma ShotsSpacedOut(trig: Trig, s: EnemyState, t1: int, d1: int, t2: int, d2: int)
    requires ShootsAt(t1, s)
    requires ShootsAt(t2, Stepped(trig, s, t1, d1))
    ensures t2 - t1 > s.shootInterval
  {
  }

  /** 'none' and every unknown pattern fire nothing; 'aimed' fires one bullet
      at ENEMY_SPEED_NORMAL from the enemy toward the player. */
  lemma AimedAndUnknownShots(trig: Trig, pattern: string, x: real, y: real, px: real, py: real)
    ensures pattern != "aimed" && pattern != "spread" && pattern != "circle" ==>
      ShotsFor(trig, pattern, x, y, px, py) == []
    ensures pattern == "aimed" ==>
      ShotsFor(trig, pattern, x, y, px, py) == [Toward(trig, x, y, Rad(trig.atan2(py - y, px - x)), 3.0)]
  {
  }

  /** 'spread' fires five bullets from the enemy at pi/2 + i*pi/12 for i in
      [-2, 2] (a quarter turn plus (i - 2)/24 turn for index i), at
      ENEMY_SPEED_NORMAL. */
  lemma SpreadShots(trig: Trig, x: real, y: real, px: real, py: real)
    ensures var r := ShotsFor(trig, "spread", x, y, px, py);
      |r| == 5 && forall i :: 0 <= i < 5 ==> r[i] == Toward(trig, x, y, Angle(0.25 + (i - 2) as real / 24.0, 0.0), 3.0)
  {
    var r := ShotsFor(trig, "spread", x, y, px, py);
    assert "spread" != "aimed" by {
      assert "spread"[0] != "aimed"[0];
    }
    assert r == seq(5, k requires 0 <= k < 5 => SpreadShot(trig, x, y, k - 2));
    forall i | 0 <= i < 5
      ensures r[i] == Toward(trig, x, y, Angle(0.25 + (i - 2) as real / 24.0, 0.0), 3.0)
    {
      assert r[i] == SpreadShot(trig, x, y, i - 2);
      SpreadAngle(trig, x, y, i - 2);
    }
  }

  lemma SpreadAngle(trig: Trig, x: real, y: real, k: int)
    ensures SpreadShot(trig, x, y, k) == Toward(trig, x, y, Angle(0.25 + k as real / 24.0, 0.0), 3.0)
  {
  }

  /** 'circle' fires twelve bullets from the enemy at 2*pi*i/12 (i/12 turn),
      at ENEMY_SPEED_SLOW. */
  lemma CircleShots(trig: Trig, x: real, y: real, px: real, py: real)
    ensures var r := ShotsFor(trig, "circle", x, y, px, py);
      |r| == 12 && forall i :: 0 <= i < 12 ==> r[i] == Toward(trig, x, y, Angle(i as real / 12.0, 0.0), 1.5)
  {
    assert ShotsFor(trig, "circle", x, y, px, py) == BasicPatterns.Circle(trig, x, y, 12, ENEMY_SPEED_SLOW, Turn(0.0));
    BasicPatterns.CircleShape(trig, x, y, 12, ENEMY_SPEED_SLOW, Turn(0.0));
  }

  /** takeDamage lowers hp by exactly the damage; the enemy dies (and scores
      its scoreValue) exactly when hp reaches zero or below, and otherwise
      scores nothing. */
  lemma DamagedSpec(s: EnemyState, d: real)
    ensures var (t, points) := Damaged(s, d);
      t.hp == s.hp - d &&
      (t.hp <= 0.0 ==> !t.active && points == s.scoreValue) &&
      (t.hp > 0.0 ==> t.active == s.active && points == 0) &&
      t.(hp := s.hp, active := s.active) == s
  {
  }

  /** An enemy with hp 10 survives 6 damage and dies on 5 more, scoring once. */
  lemma TwoHits(s: EnemyState)
    requires s.hp == 10.0 && s.active
    ensures var (a, p1) := Damaged(s, 6.0);
      a.active && a.hp == 4.0 && p1 == 0 &&
      var (b, p2) := Damaged(a, 5.0);
      !b.active && b.hp == -1.0 && p1 + p2 == s.scoreValue
  {
  }

  /** Contact damage takes half the enemy's hp, which never kills an enemy
      with positive hp: it is left at hp / 2 > 0. */
  lemma HalfDamageNeverKills(s: EnemyState)
    requires s.hp > 0.0
    ensures var (t, points) := Damaged(s, s.hp * 0.5);
      t.active == s.active && t.hp == s.hp / 2.0 && t.hp > 0.0 && points == 0
  {
  }
}
