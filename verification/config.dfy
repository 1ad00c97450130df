/** The fixed design constants of the game: playfield size, entity sizes and speeds. */
module Config {

  /** Playfield size in pixels; y grows downwards. */
  const WIDTH: int := 900
  const HEIGHT: int := 540

  const PADDLE_WIDTH: nat := 14
  const PADDLE_HEIGHT: nat := 100
  const BALL_SIZE: nat := 14

  /** Horizontal gap between a screen edge and the paddle on that side. */
  const MARGIN: int := 24

  /** Per-frame paddle speeds: the scripted opponent is one unit slower than the player. */
  const PADDLE_SPEED: int := 7
  const AI_SPEED: int := 6

  /** Half-width of the band around the ball's centre in which the opponent does not move. */
  const AI_DEADZONE: int := 4

  const BALL_BASE_SPEED: int := 6
  const BALL_MAX_VY: int := 7

  /** Smallest vertical speed a serve or a paddle bounce may leave the ball with. */
  const MIN_VY: real := 2.0
}
