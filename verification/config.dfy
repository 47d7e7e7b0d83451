// The constant record of the game (src/config/GameConfig.ts) and the
// difficulty profiles keyed by `Difficulty`.

module Config {

  // Screen
  const WIDTH: int := 640
  const HEIGHT: int := 480
  const GAME_WIDTH: int := 384
  const GAME_HEIGHT: int := 448
  const UI_WIDTH: int := 256

  // Player
  const SPEED_NORMAL: real := 4.5
  const SPEED_FOCUSED: real := 2.0
  const SHOT_INTERVAL: int := 100
  const BOMB_COUNT: int := 3
  const HITBOX_RADIUS: real := 2.0
  const INVINCIBLE_TIME: int := 2000
  const LIVES: int := 3

  // Enemies
  const BASIC_HP: real := 10.0
  const ELITE_HP: real := 50.0
  const BOSS_HP: real := 3000.0

  // Bullets
  const PLAYER_DAMAGE: real := 10.0
  const PLAYER_SPEED: real := 8.0
  const ENEMY_SPEED_SLOW: real := 1.5
  const ENEMY_SPEED_NORMAL: real := 3.0
  const ENEMY_SPEED_FAST: real := 5.0
  const MAX_BULLETS: int := 2000

  // Score
  const ENEMY_BASIC: int := 100
  const ENEMY_ELITE: int := 500
  const BOSS: int := 10000
  const SPELL_CARD_BONUS: int := 5000
  const GRAZE_POINT: int := 10

  // Power
  const MAX_LEVEL: int := 4
  const ITEMS_PER_LEVEL: int := 5

  // Physics
  const GRAVITY: int := 0
  const BOUNDS_PADDING: int := 10

  /** The keys of the DIFFICULTY record. */
  datatype Difficulty = EASY | NORMAL | HARD | LUNATIC

  datatype DifficultyProfile = DifficultyProfile(
    bulletSpeedMultiplier: real,
    enemyHpMultiplier: real,
    playerDamageMultiplier: real)

  /** The DIFFICULTY entry for `d`; every multiplier is positive. */
  function Profile(d: Difficulty): (p: DifficultyProfile)
    ensures p.bulletSpeedMultiplier > 0.0
    ensures p.enemyHpMultiplier > 0.0
    ensures p.playerDamageMultiplier > 0.0
  {
    match d
    case EASY => DifficultyProfile(0.8, 0.7, 1.3)
    case NORMAL => DifficultyProfile(1.0, 1.0, 1.0)
    case HARD => DifficultyProfile(1.2, 1.5, 0.8)
    case LUNATIC => DifficultyProfile(1.5, 2.0, 0.6)
  }

  /** Difficulty grows from EASY to NORMAL to HARD in bullet speed and enemy hp. */
  lemma DifficultyIncreases()
    ensures Profile(EASY).bulletSpeedMultiplier < Profile(NORMAL).bulletSpeedMultiplier
    ensures Profile(NORMAL).bulletSpeedMultiplier < Profile(HARD).bulletSpeedMultiplier
    ensures Profile(EASY).enemyHpMultiplier < Profile(NORMAL).enemyHpMultiplier
    ensures Profile(NORMAL).enemyHpMultiplier < Profile(HARD).enemyHpMultiplier
  {
  }

  /** The relations between the constants that the configuration promises. */
  lemma ConstantsAreConsistent()
    ensures 0.0 < SPEED_FOCUSED < SPEED_NORMAL
    ensures LIVES >= 1 && BOMB_COUNT >= 1
    ensures 0.0 < HITBOX_RADIUS < 10.0
    ensures PLAYER_SPEED > 0.0
    ensures 0.0 < ENEMY_SPEED_SLOW < ENEMY_SPEED_NORMAL < ENEMY_SPEED_FAST
    ensures 100 < MAX_BULLETS <= 5000
    ensures 0 < ENEMY_BASIC < ENEMY_ELITE < BOSS
    ensures GRAZE_POINT > 0
    ensures 0 < GAME_WIDTH < WIDTH && 0 < GAME_HEIGHT < HEIGHT
  {
  }
}
