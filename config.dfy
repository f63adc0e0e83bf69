/** Fixed configuration of the game: screen size, entity sizes, speeds and the score
    that ends a match (ping.py:8, 17-21, 27, 74), and the starting places main gives the paddles
    and the ball (ping.py:214-218). */
module Config {
  /** Screen size in pixels; y grows downward. */
  const WIDTH: int := 900
  const HEIGHT: int := 600

  const PADDLE_WIDTH: int := 20
  const PADDLE_HEIGHT: int := 100
  const BALL_RADIUS: int := 7

  /** Paddle.VEL: pixels a paddle moves per accepted key press. */
  const PADDLE_VEL: int := 5
  /** Ball.MAX_VEL: the horizontal speed of the ball and the bound on its vertical speed. */
  const MAX_VEL: int := 6

  const WINNING_SCORE: int := 10

  /** Where main places the paddles (top-left corners) and the ball (centre). */
  const LEFT_PADDLE_X: int := 10
  const RIGHT_PADDLE_X: int := WIDTH - 10 - PADDLE_WIDTH
  const PADDLE_START_Y: int := HEIGHT / 2 - PADDLE_HEIGHT / 2
  const BALL_START_X: int := WIDTH / 2
  const BALL_START_Y: int := HEIGHT / 2
}
