// The bullet pools (src/systems/BulletManager.ts). Every sprite the manager
// ever created stays in its pool (and in its Phaser group) and is recycled:
// a new bullet takes the first inactive slot and the pool grows only when
// every slot is active. Enemy bullets are capped at MAX_BULLETS active ones.
//
// A sprite is a Bullet value; the pools are sequence fields the methods
// reassign. Phaser's physics moves the sprites between calls and is not part
// of this model: positions are whatever they are when a method runs.

module BulletManager {

  import opened Config
  import opened Emissions

  /** The state of one pooled sprite; `grazed` is the sprite's 'grazed' data flag. */
  datatype Bullet = Bullet(x: real, y: real, vx: real, vy: real, active: bool, visible: bool, grazed: bool)

  /** A sprite as `scene.add.sprite(0, 0, ...)` makes it. */
  const FreshSprite: Bullet := Bullet(0.0, 0.0, 0.0, 0.0, true, true, false)

  /** One velocity component: dir * speed * 60. */
  function Velocity(dir: real, speed: real): real {
    dir * speed * 60.0
  }

  /** How many bullets of the pool are active. */
  function ActiveCount(pool: seq<Bullet>): (n: nat)
    ensures n <= |pool|
  {
    if pool == [] then 0
    else ActiveCount(pool[..|pool| - 1]) + (if pool[|pool| - 1].active then 1 else 0)
  }

  /** `pool.find(b => !b.active)`: the index of the first inactive slot, or
      |pool| when there is none. */
  function FirstInactive(pool: seq<Bullet>): (k: nat)
    ensures k <= |pool|
    ensures forall j :: 0 <= j < k ==> pool[j].active
    ensures k < |pool| ==> !pool[k].active
  {
    if pool == [] || !pool[0].active then 0 else 1 + FirstInactive(pool[1..])
  }

  /** getPlayerBullet / getEnemyBullet: the pool afterwards and the slot handed out. */
  function Acquire(pool: seq<Bullet>): (seq<Bullet>, nat) {
    var k := FirstInactive(pool);
    if k < |pool| then (pool, k) else (pool + [FreshSprite], |pool|)
  }

  /** setPosition, setActive(true), setVisible(true) and setVelocity on one
      sprite; its 'grazed' flag is left as it was. */
  function Launch(b: Bullet, x: real, y: real, vx: real, vy: real): Bullet {
    b.(x := x, y := y, vx := vx, vy := vy, active := true, visible := true)
  }

  /** returnPlayerBullet / returnEnemyBullet: inactive, invisible, at rest. */
  function Returned(b: Bullet): Bullet {
    b.(active := false, visible := false, vx := 0.0, vy := 0.0)
  }

  /** The enemy pool after createEnemyBullet(s.x, s.y, s.dirX, s.dirY, s.speed). */
  function AfterEnemyBullet(pool: seq<Bullet>, s: Shot): seq<Bullet> {
    if ActiveCount(pool) >= MAX_BULLETS then pool
    else
      var (p, k) := Acquire(pool);
      p[k := Launch(p[k], s.x, s.y, Velocity(s.dirX, s.speed), Velocity(s.dirY, s.speed))]
  }

  /** The enemy pool after createEnemyBullet for each shot in turn. */
  function AfterShots(pool: seq<Bullet>, shots: seq<Shot>): seq<Bullet> {
    if shots == [] then pool
    else AfterEnemyBullet(AfterShots(pool, shots[..|shots| - 1]), shots[|shots| - 1])
  }

  /** The player pool after createPlayerBullet(x, y, dirX, dirY); there is no cap. */
  function AfterPlayerBullet(pool: seq<Bullet>, x: real, y: real, dirX: real, dirY: real): seq<Bullet> {
    var (p, k) := Acquire(pool);
    p[k := Launch(p[k], x, y, Velocity(dirX, PLAYER_SPEED), Velocity(dirY, PLAYER_SPEED))]
  }

  /** An active player bullet above the top edge or beyond a side edge. */
  predicate PlayerBulletOut(b: Bullet) {
    b.active && (b.y < -10.0 || b.x < -10.0 || b.x > GAME_WIDTH as real + 10.0)
  }

  /** An active enemy bullet below the bottom edge or beyond a side edge. */
  predicate EnemyBulletOut(b: Bullet) {
    b.active && (b.y > GAME_HEIGHT as real + 10.0 || b.x < -10.0 || b.x > GAME_WIDTH as real + 10.0)
  }

  function CullPlayer(pool: seq<Bullet>): (r: seq<Bullet>)
    ensures |r| == |pool|
  {
    seq(|pool|, i requires 0 <= i < |pool| => if PlayerBulletOut(pool[i]) then Returned(pool[i]) else pool[i])
  }

  function CullEnemy(pool: seq<Bullet>): (r: seq<Bullet>)
    ensures |r| == |pool|
  {
    seq(|pool|, i requires 0 <= i < |pool| => if EnemyBulletOut(pool[i]) then Returned(pool[i]) else pool[i])
  }

  function Cleared(pool: seq<Bullet>): (r: seq<Bullet>)
    ensures |r| == |pool|
  {
    seq(|pool|, i requires 0 <= i < |pool| => if pool[i].active then Returned(pool[i]) else pool[i])
  }

  // ---------------------------------------------------------------- the manager

  class BulletManager {
    /** playerBulletPool, which is also the playerBullets group's children. */
    var playerPool: seq<Bullet>
    /** enemyBulletPool, which is also the enemyBullets group's children. */
    var enemyPool: seq<Bullet>

    /** The enemy pool never outgrows the cap. */
    ghost predicate Valid()
      reads this
    {
      |enemyPool| <= MAX_BULLETS
    }

    constructor()
      ensures playerPool == [] && enemyPool == []
      ensures Valid()
    {
      playerPool := [];
      enemyPool := [];
    }

    /** getActiveEnemyBulletCount. */
    method GetActiveEnemyBulletCount() returns (count: nat)
      ensures count == ActiveCount(enemyPool)
    {
      count := 0;
      var i := 0;
      while i < |enemyPool|
        invariant 0 <= i <= |enemyPool|
        invariant count == ActiveCount(enemyPool[..i])
      {
        assert enemyPool[..i + 1][..i] == enemyPool[..i];
        if enemyPool[i].active {
          count := count + 1;
        }
        i := i + 1;
      }
      assert enemyPool[..i] == enemyPool;
    }

    /** The `find` of the pools. */
    static method FindInactive(pool: seq<Bullet>) returns (k: nat)
      ensures k == FirstInactive(pool)
    {
      k := 0;
      while k < |pool| && pool[k].active
        invariant k <= |pool|
        invariant forall j :: 0 <= j < k ==> pool[j].active
      {
        k := k + 1;
      }
    }

    /** getPlayerBullet. */
    method GetPlayerBullet() returns (k: nat)
      modifies this
      ensures (playerPool, k) == Acquire(old(playerPool))
      ensures k < |playerPool|
      ensures enemyPool == old(enemyPool)
    {
      k := FindInactive(playerPool);
      if k == |playerPool| {
        playerPool := playerPool + [FreshSprite];
      }
    }

    /** getEnemyBullet. */
    method GetEnemyBullet() returns (k: nat)
      modifies this
      ensures (enemyPool, k) == Acquire(old(enemyPool))
      ensures k < |enemyPool|
      ensures playerPool == old(playerPool)
    {
      k := FindInactive(enemyPool);
      if k == |enemyPool| {
        enemyPool := enemyPool + [FreshSprite];
      }
    }

    /** createPlayerBullet(x, y, dirX, dirY). */
    method CreatePlayerBullet(x: real, y: real, dirX: real, dirY: real)
      modifies this
      ensures playerPool == AfterPlayerBullet(old(playerPool), x, y, dirX, dirY)
      ensures enemyPool == old(enemyPool)
    {
      var k := GetPlayerBullet();
      playerPool := playerPool[k := Launch(playerPool[k], x, y, Velocity(dirX, PLAYER_SPEED), Velocity(dirY, PLAYER_SPEED))];
    }

    /** createEnemyBullet(x, y, dirX, dirY, speed). */
    method CreateEnemyBullet(x: real, y: real, dirX: real, dirY: real, speed: real)
      requires Valid()
      modifies this
      ensures enemyPool == AfterEnemyBullet(old(enemyPool), Shot(x, y, dirX, dirY, speed))
      ensures playerPool == old(playerPool)
      ensures Valid()
    {
      var count := GetActiveEnemyBulletCount();
      if count >= MAX_BULLETS {
        return;
      }
      PoolStaysCapped(enemyPool, Shot(x, y, dirX, dirY, speed));
      var k := GetEnemyBullet();
      enemyPool := enemyPool[k := Launch(enemyPool[k], x, y, Velocity(dirX, speed), Velocity(dirY, speed))];
    }

    /** createEnemyBullet for each shot of a pattern, in order. */
    method Emit(shots: seq<Shot>)
      requires Valid()
      modifies this
      ensures enemyPool == AfterShots(old(enemyPool), shots)
      ensures playerPool == old(playerPool)
      ensures Valid()
    {
      var i := 0;
      while i < |shots|
        invariant 0 <= i <= |shots|
        invariant enemyPool == AfterShots(old(enemyPool), shots[..i])
        invariant playerPool == old(playerPool)
        invariant Valid()
      {
        assert shots[..i + 1][..i] == shots[..i];
        var s := shots[i];
        CreateEnemyBullet(s.x, s.y, s.dirX, s.dirY, s.speed);
        i := i + 1;
      }
      assert shots[..i] == shots;
    }

    /** returnPlayerBullet on slot k. */
    method ReturnPlayerBullet(k: nat)
      requires k < |playerPool|
      modifies this
      ensures playerPool == old(playerPool)[k := Returned(old(playerPool)[k])]
      ensures enemyPool == old(enemyPool)
    {
      playerPool := playerPool[k := Returned(playerPool[k])];
    }

    /** returnEnemyBullet on slot k. */
    method ReturnEnemyBullet(k: nat)
      requires k < |enemyPool|
      modifies this
      ensures enemyPool == old(enemyPool)[k := Returned(old(enemyPool)[k])]
      ensures playerPool == old(playerPool)
    {
      enemyPool := enemyPool[k := Returned(enemyPool[k])];
    }

    /** update: return every player bullet and every enemy bullet that left the field. */
    method Update()
      modifies this
      ensures playerPool == CullPlayer(old(playerPool))
      ensures enemyPool == CullEnemy(old(enemyPool))
    {
      var i := 0;
      while i < |playerPool|
        invariant 0 <= i <= |playerPool| == |old(playerPool)|
        invariant forall j :: 0 <= j < i ==> playerPool[j] == CullPlayer(old(playerPool))[j]
        invariant forall j :: i <= j < |playerPool| ==> playerPool[j] == old(playerPool)[j]
        invariant enemyPool == old(enemyPool)
      {
        if PlayerBulletOut(playerPool[i]) {
          ReturnPlayerBullet(i);
        }
        i := i + 1;
      }
      i := 0;
      while i < |enemyPool|
        invariant 0 <= i <= |enemyPool| == |old(enemyPool)|
        invariant forall j :: 0 <= j < i ==> enemyPool[j] == CullEnemy(old(enemyPool))[j]
        invariant forall j :: i <= j < |enemyPool| ==> enemyPool[j] == old(enemyPool)[j]
        invariant playerPool == CullPlayer(old(playerPool))
      {
        if EnemyBulletOut(enemyPool[i]) {
          ReturnEnemyBullet(i);
        }
        i := i + 1;
      }
    }

    /** clearEnemyBullets: return every active enemy bullet. */
    method ClearEnemyBullets()
      modifies this
      ensures enemyPool == Cleared(old(enemyPool))
      ensures playerPool == old(playerPool)
    {
      var i := 0;
      while i < |enemyPool|
        invariant 0 <= i <= |enemyPool| == |old(enemyPool)|
        invariant forall j :: 0 <= j < i ==> enemyPool[j] == Cleared(old(enemyPool))[j]
        invariant forall j :: i <= j < |enemyPool| ==> enemyPool[j] == old(enemyPool)[j]
        invariant playerPool == old(playerPool)
      {
        if enemyPool[i].active {
          ReturnEnemyBullet(i);
        }
        i := i + 1;
      }
    }
  }

  // ---------------------------------------------------------------- properties

  /** Replacing one bullet changes the active count by the change in that slot. */
  lemma {:induction false} ActiveCountUpdate(pool: seq<Bullet>, k: nat, b: Bullet)
    requires k < |pool|
    ensures ActiveCount(pool[k := b]) + (if pool[k].active then 1 else 0)
         == ActiveCount(pool) + (if b.active then 1 else 0)
    decreases |pool|
  {
    var n := |pool| - 1;
    var q := pool[k := b];
    assert q[..n] == if k < n then pool[..n][k := b] else pool[..n];
    if k < n {
      ActiveCountUpdate(pool[..n], k, b);
    }
  }

  /** A pool with no inactive slot counts all of its bullets. */
  lemma {:induction false} AllActiveCount(pool: seq<Bullet>)
    requires forall j :: 0 <= j < |pool| ==> pool[j].active
    ensures ActiveCount(pool) == |pool|
  {
    if pool != [] {
      AllActiveCount(pool[..|pool| - 1]);
    }
  }

  /** A pool with no active slot counts none. */
  lemma {:induction false} NoneActiveCount(pool: seq<Bullet>)
    requires forall j :: 0 <= j < |pool| ==> !pool[j].active
    ensures ActiveCount(pool) == 0
  {
    if pool != [] {
      NoneActiveCount(pool[..|pool| - 1]);
    }
  }

  /** The pool grows (by one fresh sprite) exactly when every slot is active;
      otherwise the first inactive slot is handed out and nothing changes. */
  lemma AcquireSpec(pool: seq<Bullet>)
    ensures var (p, k) := Acquire(pool);
      k < |p| && p[..|pool|] == pool &&
      (|p| == |pool| + 1 <==> forall j :: 0 <= j < |pool| ==> pool[j].active) &&
      (|p| == |pool| ==> k == FirstInactive(pool) && !pool[k].active && p == pool) &&
      (|p| == |pool| + 1 ==> k == |pool| && p[k] == FreshSprite)
  {
  }

  /** createEnemyBullet at the cap changes nothing. Below it, the first
      inactive slot (or a new one when all are active) becomes an active,
      visible bullet at (s.x, s.y) with velocity dir * speed * 60, keeping its
      old 'grazed' flag; every other slot is unchanged and exactly one more
      bullet is active. */
  lemma EnemyBulletCreated(pool: seq<Bullet>, s: Shot)
    ensures var r := AfterEnemyBullet(pool, s);
      (ActiveCount(pool) >= MAX_BULLETS ==> r == pool) &&
      (ActiveCount(pool) < MAX_BULLETS ==>
        var k := FirstInactive(pool);
        ActiveCount(r) == ActiveCount(pool) + 1 &&
        |r| == (if k < |pool| then |pool| else |pool| + 1) &&
        r[k] == Bullet(s.x, s.y, Velocity(s.dirX, s.speed), Velocity(s.dirY, s.speed), true, true,
                       k < |pool| && pool[k].grazed) &&
        forall j :: 0 <= j < |pool| && j != k ==> r[j] == pool[j])
  {
    if ActiveCount(pool) < MAX_BULLETS {
      var (p, k) := Acquire(pool);
      var b := Launch(p[k], s.x, s.y, Velocity(s.dirX, s.speed), Velocity(s.dirY, s.speed));
      ActiveCountUpdate(p, k, b);
      if k == |pool| {
        assert p[..|pool|] == pool;
      }
    }
  }

  /** The enemy pool only grows when every slot is active, which is below the
      cap, so it never holds more than MAX_BULLETS sprites. */
  lemma PoolStaysCapped(pool: seq<Bullet>, s: Shot)
    requires |pool| <= MAX_BULLETS
    ensures |AfterEnemyBullet(pool, s)| <= MAX_BULLETS
  {
    if ActiveCount(pool) < MAX_BULLETS && FirstInactive(pool) == |pool| {
      AllActiveCount(pool);
    }
    EnemyBulletCreated(pool, s);
  }

  /** Emitting n shots into a pool within the cap activates exactly
      min(n, room) more bullets, so the active count never passes
      MAX_BULLETS, and the pool stays within the cap. */
  lemma {:induction false} ShotsFillUpToCap(pool: seq<Bullet>, shots: seq<Shot>)
    requires ActiveCount(pool) <= MAX_BULLETS && |pool| <= MAX_BULLETS
    ensures var r := AfterShots(pool, shots);
      ActiveCount(r) == (if ActiveCount(pool) + |shots| <= MAX_BULLETS then ActiveCount(pool) + |shots| else MAX_BULLETS) &&
      |r| <= MAX_BULLETS
  {
    if shots != [] {
      var init := shots[..|shots| - 1];
      ShotsFillUpToCap(pool, init);
      var mid := AfterShots(pool, init);
      EnemyBulletCreated(mid, shots[|shots| - 1]);
      PoolStaysCapped(mid, shots[|shots| - 1]);
    }
  }

  /** Emitting a then b is emitting a + b. */
  lemma {:induction false} AfterShotsConcat(pool: seq<Bullet>, a: seq<Shot>, b: seq<Shot>)
    ensures AfterShots(pool, a + b) == AfterShots(AfterShots(pool, a), b)
    decreases |b|
  {
    if b == [] {
      assert a + b == a;
    } else {
      assert (a + b)[..|a + b| - 1] == a + b[..|b| - 1];
      AfterShotsConcat(pool, a, b[..|b| - 1]);
    }
  }

  /** createPlayerBullet has no cap: it always activates one more bullet, in
      the first inactive slot (or a new one), at (x, y) with velocity
      dir * PLAYER_SPEED * 60; every other slot is unchanged. */
  lemma PlayerBulletCreated(pool: seq<Bullet>, x: real, y: real, dirX: real, dirY: real)
    ensures var r := AfterPlayerBullet(pool, x, y, dirX, dirY);
      var k := FirstInactive(pool);
      ActiveCount(r) == ActiveCount(pool) + 1 &&
      r[k] == Bullet(x, y, Velocity(dirX, PLAYER_SPEED), Velocity(dirY, PLAYER_SPEED), true, true,
                     k < |pool| && pool[k].grazed) &&
      forall j :: 0 <= j < |pool| && j != k ==> r[j] == pool[j]
  {
    var (p, k) := Acquire(pool);
    var b := Launch(p[k], x, y, Velocity(dirX, PLAYER_SPEED), Velocity(dirY, PLAYER_SPEED));
    ActiveCountUpdate(p, k, b);
    if k == |pool| {
      assert p[..|pool|] == pool;
    }
  }

  /** Culling deactivates a player bullet exactly when it was active and above
      y = -10 or beyond x = -10 or x = GAME_WIDTH + 10; the bottom edge is never
      checked. A culled bullet is invisible and at rest; others are untouched. */
  lemma PlayerCull(pool: seq<Bullet>, i: int)
    requires 0 <= i < |pool|
    ensures var r := CullPlayer(pool)[i];
      (r.active <==> pool[i].active && pool[i].y >= -10.0 && -10.0 <= pool[i].x <= GAME_WIDTH as real + 10.0) &&
      (!PlayerBulletOut(pool[i]) ==> r == pool[i]) &&
      (PlayerBulletOut(pool[i]) ==> r == Returned(pool[i]) && !r.visible && r.vx == 0.0 && r.vy == 0.0) &&
      (pool[i].active && 0.0 <= pool[i].x <= GAME_WIDTH as real && pool[i].y > 1000000.0 ==> r.active)
  {
  }

  /** Culling deactivates an enemy bullet exactly when it was active and below
      y = GAME_HEIGHT + 10 or beyond x = -10 or x = GAME_WIDTH + 10; the top
      edge is never checked. */
  lemma EnemyCull(pool: seq<Bullet>, i: int)
    requires 0 <= i < |pool|
    ensures var r := CullEnemy(pool)[i];
      (r.active <==> pool[i].active && pool[i].y <= GAME_HEIGHT as real + 10.0 && -10.0 <= pool[i].x <= GAME_WIDTH as real + 10.0) &&
      (!EnemyBulletOut(pool[i]) ==> r == pool[i]) &&
      (EnemyBulletOut(pool[i]) ==> r == Returned(pool[i])) &&
      (pool[i].active && 0.0 <= pool[i].x <= GAME_WIDTH as real && pool[i].y < -1000000.0 ==> r.active)
  {
  }

  /** Clearing leaves no enemy bullet active and keeps the pool's size:
      every bullet that was active is returned to the pool (invisible, at
      rest, where it was, its 'grazed' flag kept) and every other one is
      left exactly as it was. */
  lemma ClearedSpec(pool: seq<Bullet>)
    ensures var r := Cleared(pool);
      ActiveCount(r) == 0 && |r| == |pool| &&
      forall j :: 0 <= j < |pool| ==>
        (pool[j].active ==> r[j] == Returned(pool[j]) && !r[j].visible && r[j].x == pool[j].x && r[j].y == pool[j].y &&
                            r[j].grazed == pool[j].grazed) &&
        (!pool[j].active ==> r[j] == pool[j])
  {
    NoneActiveCount(Cleared(pool));
  }

  /** Returning a bullet deactivates only that slot. */
  lemma ReturnedSpec(pool: seq<Bullet>, k: int)
    requires 0 <= k < |pool|
    ensures var r := pool[k := Returned(pool[k])];
      ActiveCount(r) == ActiveCount(pool) - (if pool[k].active then 1 else 0) &&
      !r[k].active && !r[k].visible && r[k].vx == 0.0 && r[k].vy == 0.0 &&
      forall j :: 0 <= j < |pool| && j != k ==> r[j] == pool[j]
  {
    ActiveCountUpdate(pool, k, Returned(pool[k]));
  }
}
