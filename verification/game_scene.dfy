// The run state of the main scene (src/scenes/GameScene.ts): score, lives,
// bombs, power and graze, and the entry points the other systems call
// (addScore, addGraze, playerHit, useBomb). The per-frame `update` is in
// GameLoop, because it calls systems that themselves call back into the
// scene.
//
// `over` records that gameOver() has been called; switching to the game-over
// scene is Phaser's and is not modelled.

module GameScene {

  import opened Config
  import opened Wrappers
  import Player
  import BulletManager

  /** The counters of a run and whether the game is over. */
  datatype RunState = RunState(score: int, lives: int, bombs: int, power: int, graze: int, over: bool)

  /** The counters `init` sets. */
  const Start: RunState := RunState(0, LIVES, BOMB_COUNT, 0, 0, false)

  /** The bounds the counters keep: power within [0, 100], bombs within
      [0, 8], lives at most 8, graze non-negative. */
  predicate Sane(s: RunState) {
    0 <= s.power <= 100 && 0 <= s.bombs <= 8 && s.lives <= 8 && s.graze >= 0
  }

  /** What every change the systems make to a run keeps: the bounds, a game
      that is over stays over, and graze never shrinks. */
  predicate Settles(a: RunState, b: RunState) {
    (Sane(a) ==> Sane(b)) && (a.over ==> b.over) && a.graze <= b.graze
  }

  function Max(a: int, b: int): int {
    if a > b then a else b
  }

  /** addScore(points). */
  function Scored(s: RunState, points: int): RunState {
    s.(score := s.score + points)
  }

  /** addGraze(count). */
  function Grazed(s: RunState, count: int): RunState {
    Scored(s.(graze := s.graze + count), GRAZE_POINT * count)
  }

  /** playerHit, given whether the player was invincible. */
  function Hit(s: RunState, invincible: bool): RunState {
    if invincible then s
    else if s.lives - 1 <= 0 then s.(lives := s.lives - 1, over := true)
    else s.(lives := s.lives - 1, power := Max(0, s.power - 10))
  }

  /** useBomb's effect on the counters. */
  function Bombed(s: RunState): RunState {
    if s.bombs <= 0 then s else s.(bombs := s.bombs - 1)
  }

  /** `data.stage || 1`: a missing or zero stage number means stage 1. */
  function StageOrDefault(stage: Option<int>): int {
    if stage.None? || stage.value == 0 then 1 else stage.value
  }

  class GameScene {
    var score: int
    var lives: int
    var bombs: int
    var power: int
    var graze: int
    var isPaused: bool
    var over: bool
    /** Set once by init and never reassigned. */
    const difficulty: Difficulty
    const currentStage: int
    const player: Player.Player
    const bullets: BulletManager.BulletManager

    ghost function State(): RunState
      reads this
    {
      RunState(score, lives, bombs, power, graze, over)
    }

    ghost predicate Valid()
      reads this, bullets
    {
      Sane(State()) && bullets.Valid()
    }

    /** init(data) followed by the part of create that makes the bullet
        manager and the player at (GAME_WIDTH / 2, GAME_HEIGHT - 80). */
    constructor(d: Option<Difficulty>, stage: Option<int>)
      ensures State() == Start && !isPaused
      ensures difficulty == (if d.Some? then d.value else NORMAL)
      ensures currentStage == StageOrDefault(stage)
      ensures fresh(player) && fresh(bullets)
      ensures player.x == GAME_WIDTH as real / 2.0 && player.y == (GAME_HEIGHT - 80) as real
      ensures !player.isInvincible && player.lastShootTime == 0
      ensures bullets.playerPool == [] && bullets.enemyPool == []
      ensures Valid()
    {
      difficulty := if d.Some? then d.value else NORMAL;
      currentStage := if stage.None? || stage.value == 0 then 1 else stage.value;
      score := 0;
      lives := LIVES;
      bombs := BOMB_COUNT;
      power := 0;
      graze := 0;
      isPaused := false;
      over := false;
      bullets := new BulletManager.BulletManager();
      player := new Player.Player(GAME_WIDTH as real / 2.0, (GAME_HEIGHT - 80) as real);
    }

    /** addScore(points). */
    method AddScore(points: int)
      modifies this
      ensures State() == Scored(old(State()), points)
      ensures isPaused == old(isPaused)
    {
      score := score + points;
    }

    /** addGraze(count). */
    method AddGraze(count: int)
      modifies this
      ensures State() == Grazed(old(State()), count)
      ensures isPaused == old(isPaused)
    {
      graze := graze + count;
      AddScore(GRAZE_POINT * count);
    }

    /** playerHit: nothing while invincible; otherwise one life less, then
        either game over or invincibility and a power loss of 10. */
    method PlayerHit()
      modifies this, player
      ensures State() == Hit(old(State()), old(player.isInvincible))
      ensures player.isInvincible == (old(player.isInvincible) || lives > 0)
      ensures !old(player.isInvincible) && lives > 0 ==> player.invincibleTimerPending
      ensures old(player.isInvincible) || lives <= 0 ==> player.invincibleTimerPending == old(player.invincibleTimerPending)
      ensures player.x == old(player.x) && player.y == old(player.y)
      ensures player.Controls() == old(player.Controls())
      ensures isPaused == old(isPaused)
    {
      if player.isInvincible {
        return;
      }
      lives := lives - 1;
      if lives <= 0 {
        over := true;
      } else {
        player.MakeInvincible();
        power := if 0 > power - 10 then 0 else power - 10;
      }
    }

    /** useBomb: nothing without bombs; otherwise one bomb less and every
        enemy bullet cleared. */
    method UseBomb()
      modifies this, bullets
      ensures State() == Bombed(old(State()))
      ensures old(bombs) > 0 ==> bullets.enemyPool == BulletManager.Cleared(old(bullets.enemyPool))
      ensures old(bombs) <= 0 ==> bullets.enemyPool == old(bullets.enemyPool)
      ensures bullets.playerPool == old(bullets.playerPool)
      ensures |bullets.enemyPool| == |old(bullets.enemyPool)|
      ensures isPaused == old(isPaused)
    {
      if bombs <= 0 {
        return;
      }
      bombs := bombs - 1;
      bullets.ClearEnemyBullets();
    }

    /** togglePause. */
    method TogglePause()
      modifies this
      ensures isPaused == !old(isPaused)
      ensures State() == old(State())
    {
      isPaused := !isPaused;
    }
  }

  // ---------------------------------------------------------------- properties

  /** A run starts within bounds. */
  lemma StartIsSane()
    ensures Sane(Start) && Start.lives == 3 && Start.bombs == 3 && !Start.over
  {
  }

  /** A hit on an invincible player changes nothing. Otherwise exactly one
      life is lost and nothing else but power and `over` changes: at zero
      lives the game is over and power is kept, above it power drops by 10
      and never below 0. Bounds are kept. */
  lemma HitSpec(s: RunState, invincible: bool)
    ensures var t := Hit(s, invincible);
      (invincible ==> t == s) &&
      (!invincible ==>
        t.lives == s.lives - 1 && t.score == s.score && t.bombs == s.bombs && t.graze == s.graze &&
        (t.over <==> s.over || t.lives <= 0) &&
        (t.lives <= 0 ==> t.power == s.power) &&
        (t.lives > 0 ==> t.power == (if s.power >= 10 then s.power - 10 else 0) && t.over == s.over)) &&
      (Sane(s) ==> Sane(t)) &&
      (s.power >= 0 ==> t.power >= 0)
  {
  }

  /** A bomb is used only when one is left, so bombs never go negative. */
  lemma BombSpec(s: RunState)
    ensures var t := Bombed(s);
      (s.bombs <= 0 ==> t == s) &&
      (s.bombs > 0 ==> t == s.(bombs := s.bombs - 1)) &&
      (s.bombs >= 0 ==> t.bombs >= 0) &&
      t.score == s.score &&
      (Sane(s) ==> Sane(t))
  {
  }

  /** Grazing n bullets adds n to graze and GRAZE_POINT * n to score. */
  lemma GrazeSpec(s: RunState, n: int)
    ensures var t := Grazed(s, n);
      t.graze == s.graze + n && t.score == s.score + 10 * n &&
      t.lives == s.lives && t.bombs == s.bombs && t.power == s.power && t.over == s.over &&
      (Sane(s) && n >= 0 ==> Sane(t))
  {
  }

  /** addScore adds exactly the points and nothing else. */
  lemma ScoreSpec(s: RunState, p: int)
    ensures var t := Scored(s, p);
      t.score == s.score + p && t.(score := s.score) == s && (Sane(s) ==> Sane(t))
  {
  }
}
