// The player ship (src/entities/Player.ts): eight-way movement with a focus
// (slow) key, a clamped position, a cooldown-gated volley whose width grows
// with the scene's power, and an invincibility flag that only the
// INVINCIBLE_TIME timer clears.
//
// Key state is read by Phaser each frame; here it is the Keys value passed
// to Update. The scene's power, which `shoot` reads from the scene, is a
// parameter, and the bomb key is reported back to the caller, which calls
// the scene's useBomb at once (see GameLoop).

module Player {

  import opened Config
  import BulletManager

  /** The keys held this frame; `bombJustDown` is JustDown(bombKey). */
  datatype Keys = Keys(left: bool, right: bool, up: bool, down: bool, shoot: bool, bombJustDown: bool, focus: bool)

  /** The arguments of one createPlayerBullet(x, y, dirX, dirY) call. */
  datatype PlayerShot = PlayerShot(x: real, y: real, dirX: real, dirY: real)

  /** Phaser.Math.Clamp: max(lo, min(hi, v)). */
  function Clamp(v: real, lo: real, hi: real): (r: real)
    ensures lo <= hi ==> lo <= r <= hi
    ensures lo <= v <= hi ==> r == v
    ensures v < lo ==> r == lo
    ensures lo <= hi < v ==> r == hi
  {
    var m := if v < hi then v else hi;
    if lo < m then m else lo
  }

  /** The speed of the ship: SPEED_FOCUSED while focus is held. */
  function Speed(focus: bool): real {
    if focus then SPEED_FOCUSED else SPEED_NORMAL
  }

  /** One axis of the 8-way input: the positive key overrides the negative one. */
  function Axis(negative: bool, positive: bool): int {
    if positive then 1 else if negative then -1 else 0
  }

  /** The (moveX, moveY) of a frame: each axis in {-1, 0, 1}, both scaled by
      0.707 when both are non-zero. */
  function Steer(k: Keys): (real, real) {
    var ax := Axis(k.left, k.right) as real;
    var ay := Axis(k.up, k.down) as real;
    if ax != 0.0 && ay != 0.0 then (ax * 0.707, ay * 0.707) else (ax, ay)
  }

  /** One velocity component: move * speed * 60. */
  function MoveVelocity(move: real, speed: real): real {
    move * speed * 60.0
  }

  /** The smallest and largest x and y the ship may have after moving. */
  const EDGE: real := 16.0
  const MAX_X: real := GAME_WIDTH as real - 16.0
  const MAX_Y: real := GAME_HEIGHT as real - 16.0

  /** A mirrored pair of side bullets, `dx` to each side and `dy` below the
      ship, flying at (-dirX, dirY) and (dirX, dirY). */
  function SidePair(x: real, y: real, dx: real, dy: real, dirX: real, dirY: real): seq<PlayerShot> {
    [PlayerShot(x - dx, y + dy, -dirX, dirY), PlayerShot(x + dx, y + dy, dirX, dirY)]
  }

  /** The bullets of one `shoot`: the centre shot, then a pair for each power
      tier reached (25, 50, 75). */
  function Volley(x: real, y: real, power: int): seq<PlayerShot> {
    [PlayerShot(x, y - 20.0, 0.0, -1.0)]
    + (if power >= 25 then SidePair(x, y, 15.0, -10.0, 0.2, -1.0) else [])
    + (if power >= 50 then SidePair(x, y, 25.0, 0.0, 0.3, -1.0) else [])
    + (if power >= 75 then SidePair(x, y, 30.0, 10.0, 0.4, -0.9) else [])
  }

  /** The player pool after createPlayerBullet for each shot in turn. */
  function AfterVolley(pool: seq<BulletManager.Bullet>, shots: seq<PlayerShot>): seq<BulletManager.Bullet> {
    if shots == [] then pool
    else
      var s := shots[|shots| - 1];
      BulletManager.AfterPlayerBullet(AfterVolley(pool, shots[..|shots| - 1]), s.x, s.y, s.dirX, s.dirY)
  }

  /** The cooldown test of handleShooting: fire only with the key held and at
      least SHOT_INTERVAL ms since the last shot. */
  predicate Fires(shootDown: bool, time: int, lastShootTime: int) {
    shootDown && time - lastShootTime >= SHOT_INTERVAL
  }

  class Player {
    var x: real
    var y: real
    /** The body's velocity, set by handleMovement and applied by the physics engine. */
    var vx: real
    var vy: real
    var lastShootTime: int
    var isInvincible: bool
    /** Whether the INVINCIBLE_TIME delayed call of makeInvincible is pending. */
    var invincibleTimerPending: bool
    var hitboxVisible: bool

    /** What update sets from the keys and the clock and the collisions
        leave alone: the velocity, the hitbox's visibility and the last
        shot time. */
    ghost function Controls(): (real, real, bool, int)
      reads this
    {
      (vx, vy, hitboxVisible, lastShootTime)
    }

    constructor(x0: real, y0: real)
      ensures x == x0 && y == y0 && vx == 0.0 && vy == 0.0
      ensures lastShootTime == 0 && !isInvincible && !invincibleTimerPending && !hitboxVisible
    {
      x, y := x0, y0;
      vx, vy := 0.0, 0.0;
      lastShootTime := 0;
      isInvincible := false;
      invincibleTimerPending := false;
      hitboxVisible := false;
    }

    /** handleMovement: velocity from the keys, position clamped to the field. */
    method HandleMovement(k: Keys)
      modifies this
      ensures var (mx, my) := Steer(k);
        vx == MoveVelocity(mx, Speed(k.focus)) && vy == MoveVelocity(my, Speed(k.focus))
      ensures x == Clamp(old(x), EDGE, MAX_X) && y == Clamp(old(y), EDGE, MAX_Y)
      ensures EDGE <= x <= MAX_X && EDGE <= y <= MAX_Y
      ensures hitboxVisible == k.focus
      ensures lastShootTime == old(lastShootTime) && isInvincible == old(isInvincible)
      ensures invincibleTimerPending == old(invincibleTimerPending)
    {
      var speed := if k.focus then SPEED_FOCUSED else SPEED_NORMAL;
      vx, vy := 0.0, 0.0;
      var moveX: real := 0.0;
      var moveY: real := 0.0;
      if k.left { moveX := -1.0; }
      if k.right { moveX := 1.0; }
      if k.up { moveY := -1.0; }
      if k.down { moveY := 1.0; }
      if moveX != 0.0 && moveY != 0.0 {
        moveX := moveX * 0.707;
        moveY := moveY * 0.707;
      }
      vx, vy := MoveVelocity(moveX, speed), MoveVelocity(moveY, speed);
      x := Clamp(x, EDGE, MAX_X);
      y := Clamp(y, EDGE, MAX_Y);
      hitboxVisible := k.focus;
    }

    /** shoot: one createPlayerBullet call per shot of the volley for `power`. */
    method Shoot(power: int, bm: BulletManager.BulletManager)
      modifies bm
      ensures bm.playerPool == AfterVolley(old(bm.playerPool), Volley(x, y, power))
      ensures bm.enemyPool == old(bm.enemyPool)
    {
      ghost var p0 := bm.playerPool;
      bm.CreatePlayerBullet(x, y - 20.0, 0.0, -1.0);
      ghost var c := [PlayerShot(x, y - 20.0, 0.0, -1.0)];
      ghost var a := if power >= 25 then SidePair(x, y, 15.0, -10.0, 0.2, -1.0) else [];
      ghost var b := if power >= 50 then SidePair(x, y, 25.0, 0.0, 0.3, -1.0) else [];
      ghost var d := if power >= 75 then SidePair(x, y, 30.0, 10.0, 0.4, -0.9) else [];
      assert bm.playerPool == AfterVolley(p0, c);
      if power >= 25 {
        FirePair(bm, x, y, 15.0, -10.0, 0.2, -1.0);
      }
      AfterVolleyConcat(p0, c, a);
      assert bm.playerPool == AfterVolley(p0, c + a);
      if power >= 50 {
        FirePair(bm, x, y, 25.0, 0.0, 0.3, -1.0);
      }
      AfterVolleyConcat(p0, c + a, b);
      assert bm.playerPool == AfterVolley(p0, c + a + b);
      if power >= 75 {
        FirePair(bm, x, y, 30.0, 10.0, 0.4, -0.9);
      }
      AfterVolleyConcat(p0, c + a + b, d);
      assert Volley(x, y, power) == c + a + b + d;
    }

    /** The two createPlayerBullet calls of one power tier. */
    static method FirePair(bm: BulletManager.BulletManager, x: real, y: real, dx: real, dy: real, dirX: real, dirY: real)
      modifies bm
      ensures bm.playerPool == AfterVolley(old(bm.playerPool), SidePair(x, y, dx, dy, dirX, dirY))
      ensures bm.enemyPool == old(bm.enemyPool)
    {
      ghost var p0 := bm.playerPool;
      ghost var pair := SidePair(x, y, dx, dy, dirX, dirY);
      bm.CreatePlayerBullet(x - dx, y + dy, -dirX, dirY);
      assert [pair[0]][..0] == [];
      assert bm.playerPool == AfterVolley(p0, [pair[0]]);
      bm.CreatePlayerBullet(x + dx, y + dy, dirX, dirY);
      assert pair[..1] == [pair[0]];
    }

    /** handleShooting: fire a volley when Fires holds, and restart the cooldown. */
    method HandleShooting(time: int, shootDown: bool, power: int, bm: BulletManager.BulletManager)
      modifies this, bm
      ensures Fires(shootDown, time, old(lastShootTime)) ==>
        lastShootTime == time && bm.playerPool == AfterVolley(old(bm.playerPool), Volley(x, y, power))
      ensures !Fires(shootDown, time, old(lastShootTime)) ==>
        lastShootTime == old(lastShootTime) && bm.playerPool == old(bm.playerPool)
      ensures bm.enemyPool == old(bm.enemyPool)
      ensures x == old(x) && y == old(y) && vx == old(vx) && vy == old(vy)
      ensures isInvincible == old(isInvincible) && invincibleTimerPending == old(invincibleTimerPending)
      ensures hitboxVisible == old(hitboxVisible)
    {
      if !shootDown {
        return;
      }
      if time - lastShootTime < SHOT_INTERVAL {
        return;
      }
      lastShootTime := time;
      Shoot(power, bm);
    }

    /** update: move, then shoot; reports whether the bomb key was just pressed
        (handleBomb), so that the caller can use a bomb. */
    method Update(time: int, k: Keys, power: int, bm: BulletManager.BulletManager) returns (bomb: bool)
      modifies this, bm
      ensures bomb == k.bombJustDown
      ensures EDGE <= x <= MAX_X && EDGE <= y <= MAX_Y
      ensures x == Clamp(old(x), EDGE, MAX_X) && y == Clamp(old(y), EDGE, MAX_Y)
      ensures var (mx, my) := Steer(k);
        vx == MoveVelocity(mx, Speed(k.focus)) && vy == MoveVelocity(my, Speed(k.focus))
      ensures hitboxVisible == k.focus
      ensures Fires(k.shoot, time, old(lastShootTime)) ==>
        lastShootTime == time && bm.playerPool == AfterVolley(old(bm.playerPool), Volley(x, y, power))
      ensures !Fires(k.shoot, time, old(lastShootTime)) ==>
        lastShootTime == old(lastShootTime) && bm.playerPool == old(bm.playerPool)
      ensures bm.enemyPool == old(bm.enemyPool)
      ensures isInvincible == old(isInvincible) && invincibleTimerPending == old(invincibleTimerPending)
    {
      HandleMovement(k);
      HandleShooting(time, k.shoot, power, bm);
      bomb := k.bombJustDown;
    }

    /** makeInvincible: invincible until the INVINCIBLE_TIME callback runs. */
    method MakeInvincible()
      modifies this
      ensures isInvincible && invincibleTimerPending
      ensures x == old(x) && y == old(y) && vx == old(vx) && vy == old(vy)
      ensures lastShootTime == old(lastShootTime) && hitboxVisible == old(hitboxVisible)
    {
      isInvincible := true;
      invincibleTimerPending := true;
    }

    /** The INVINCIBLE_TIME callback of makeInvincible: the only place that
        clears isInvincible. */
    method InvincibilityEnds()
      modifies this
      ensures !isInvincible && !invincibleTimerPending
      ensures x == old(x) && y == old(y) && vx == old(vx) && vy == old(vy)
      ensures lastShootTime == old(lastShootTime) && hitboxVisible == old(hitboxVisible)
    {
      isInvincible := false;
      invincibleTimerPending := false;
    }

    /** getHitboxRadius. */
    function HitboxRadius(): (r: real)
      ensures 0.0 < r < 10.0
    {
      HITBOX_RADIUS
    }
  }

  // ---------------------------------------------------------------- properties

  /** On each axis the positive key overrides the negative one; diagonals are
      scaled by 0.707 on both axes, and a single axis moves at full speed. */
  lemma SteerSpec(k: Keys)
    ensures var (mx, my) := Steer(k);
      (k.right ==> mx > 0.0) && (k.left && !k.right ==> mx < 0.0) && (!k.left && !k.right ==> mx == 0.0) &&
      (k.down ==> my > 0.0) && (k.up && !k.down ==> my < 0.0) && (!k.up && !k.down ==> my == 0.0) &&
      (mx != 0.0 && my != 0.0 ==> (mx == 0.707 || mx == -0.707) && (my == 0.707 || my == -0.707)) &&
      (mx == 0.0 || my == 0.0 ==> -1.0 <= mx <= 1.0 && -1.0 <= my <= 1.0 && (mx * mx + my * my == 1.0 || mx == my == 0.0)) &&
      mx * mx + my * my <= 1.0
  {
  }

  /** Two side bullets mirrored about the ship's x, the first on the left
      flying left. */
  predicate Mirrored(l: PlayerShot, r: PlayerShot, x: real) {
    r.y == l.y && r.x - x == x - l.x && r.dirX == -l.dirX && l.dirX < 0.0
  }

  /** The volley has 1, 3, 5 or 7 bullets by power tier; every bullet flies
      upward, and the side bullets come in mirrored pairs. */
  lemma VolleySpec(x: real, y: real, power: int)
    ensures var v := Volley(x, y, power);
      |v| == (if power < 25 then 1 else if power < 50 then 3 else if power < 75 then 5 else 7) &&
      v[0] == PlayerShot(x, y - 20.0, 0.0, -1.0) &&
      (forall i :: 0 <= i < |v| ==> v[i].dirY < 0.0) &&
      (forall k :: 0 <= k < |v| / 2 ==> Mirrored(v[2 * k + 1], v[2 * k + 2], x))
  {
    var c := PlayerShot(x, y - 20.0, 0.0, -1.0);
    var l1, r1 := PlayerShot(x - 15.0, y - 10.0, -0.2, -1.0), PlayerShot(x + 15.0, y - 10.0, 0.2, -1.0);
    var l2, r2 := PlayerShot(x - 25.0, y + 0.0, -0.3, -1.0), PlayerShot(x + 25.0, y + 0.0, 0.3, -1.0);
    var l3, r3 := PlayerShot(x - 30.0, y + 10.0, -0.4, -0.9), PlayerShot(x + 30.0, y + 10.0, 0.4, -0.9);
    if power < 25 {
      assert Volley(x, y, power) == [c];
    } else if power < 50 {
      assert Volley(x, y, power) == [c, l1, r1];
    } else if power < 75 {
      assert Volley(x, y, power) == [c, l1, r1, l2, r2];
    } else {
      assert Volley(x, y, power) == [c, l1, r1, l2, r2, l3, r3];
    }
  }

  /** Firing s then t is firing s + t. */
  lemma {:induction false} AfterVolleyConcat(pool: seq<BulletManager.Bullet>, s: seq<PlayerShot>, t: seq<PlayerShot>)
    ensures AfterVolley(pool, s + t) == AfterVolley(AfterVolley(pool, s), t)
    decreases |t|
  {
    if t != [] {
      assert (s + t)[..|s + t| - 1] == s + t[..|t| - 1];
      AfterVolleyConcat(pool, s, t[..|t| - 1]);
    } else {
      assert s + t == s;
    }
  }

  /** Each shot of a volley activates one more player bullet: player bullets
      have no cap. */
  lemma {:induction false} VolleyActivates(pool: seq<BulletManager.Bullet>, shots: seq<PlayerShot>)
    ensures BulletManager.ActiveCount(AfterVolley(pool, shots)) == BulletManager.ActiveCount(pool) + |shots|
  {
    if shots != [] {
      var s := shots[|shots| - 1];
      VolleyActivates(pool, shots[..|shots| - 1]);
      BulletManager.PlayerBulletCreated(AfterVolley(pool, shots[..|shots| - 1]), s.x, s.y, s.dirX, s.dirY);
    }
  }
}
