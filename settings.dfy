/** Game-wide constants of game/settings.py. The killerasteroids package reads
    the same values through its own settings module. */
module Settings {
  /** Target frame rate of the game loops. */
  const FPS := 30

  /** The screen's width and height. */
  const WIDTH := 640
  const HEIGHT := 400

  /** The box the player's ship may steer within. */
  const LIMIT_UP := 35
  const LIMIT_DOWN := HEIGHT - 40
  const LIMIT_LEFT := 0
  const LIMIT_RIGHT := WIDTH - 100

  datatype Color = Color(r: int, g: int, b: int)

  const BG_COLOR := Color(0, 0, 15)
  const TEXT_COLOR := Color(255, 255, 255)
  const ACTIVE_OPTION := Color(0, 255, 0)

  /** The size of one animation frame of a sprite sheet. */
  datatype Size = Size(w: int, h: int)

  const POWER_UP_SPRITE := Size(15, 15)
  const POWER_UP_EFFECT_SPRITE := Size(45, 45)
  const ASTEROID_SPRITE := Size(35, 35)
  const LASER_SPRITE := Size(16, 16)
  const EXPLOSION_SPRITE := Size(64, 64)
  const SPACE_SPRITE := Size(640, 400)
  const PLAYER_SPRITE := Size(92, 36)
}
