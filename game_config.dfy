/** The game's tuning constants (gameConfig.ts). */
module GameConfig {
  const GAME_WIDTH: int := 960
  const GAME_HEIGHT: int := 540

  const KILLS_TO_WIN: int := 10

  const PLAYER_MAX_HP: int := 3
  const PLAYER_SHOT_COOLDOWN_MS: int := 180

  const ENEMY_SPAWN_DELAY_MS: int := 1400
  const ENEMY_FIRE_MIN_MS: int := 1100
  const ENEMY_FIRE_MAX_MS: int := 1800
  const MAX_ENEMIES_ON_FIELD: int := 6

  const BULLET_LIFETIME_MS: int := 1700
}
