# Pong simulation core, modelled in Dafny

This project models the per-frame simulation of a two-player Pong game written in
Python with pygame (`ping.py`). Two paddles move under their own keys and stay on
screen. A ball moves by its velocity, bounces off the top and bottom walls and off
the paddle it travels toward, and picks up a vertical speed that depends on where
it strikes the paddle. A ball that leaves the screen on one side is a point for the
other player and is served again from the centre. At ten points the match is won
and everything is reset.

The model has two layers:

- **Values.** `PaddleState`, `BallState`, `Keys` and `Game` are datatypes. The
  functions over them (`PaddleMoved`, `BallReset`, `Steer`, `Collide`, `Scored`,
  `Step`, `Play`, ...) give the meaning of each operation. Their contracts and the
  lemmas beside them state the properties.
- **Objects.** `Paddle` and `Ball` are classes whose methods update their fields in
  place, as the Python classes do. `HandlePaddleMovement`, `HandleCollision` and
  `Frame` mutate the objects they are given. `RunMatch` is the main loop over one
  key snapshot per frame. Each method's `ensures` ties the new state of the objects
  to the value-level function applied to the old state.

Modules: `Config` (the constants), `Entities` (paddle and ball), `Input` (keyboard
control), `Collision` (wall and paddle response), `Match` (scoring, the win check,
one frame and the loop) and `Scenarios` (worked frames).

Numbers: `ball.x`, `x_vel`, paddle positions, sizes and scores are integers. After a
paddle hit ping.py computes `y_vel` with true division, so `ball.y` and `y_vel`
become floats. The model uses exact `real` arithmetic for `ball.y`, `y_vel`,
`original_y` and the paddle-centre arithmetic instead.

The game's documented intent, as its authors describe the behaviour, differs from
what ping.py does in a few places. The model follows ping.py:

- Wall bounce. The documented intent treats the bottom and top tests as
  independent, so that a ball touching both walls would have `y_vel` negated twice.
  ping.py joins them with `elif` (ping.py:156-159), so `y_vel` is negated at most
  once per frame, and `WallBounce` says exactly that.
- Both paddle keys held. The documented intent is that holding both keys gives no
  movement. ping.py makes the up move first, then tests the down move against the
  new position (ping.py:194-197, 199-202). So the moves cancel whenever the up move
  fits. A paddle at the top (y < VEL) cannot move up, and it still moves down by
  VEL. `Input.Steer` states both cases and `Scenarios.BothKeysAtTopMovesDown` shows
  the second one.
- Missed-ball example. The documented worked example has a ball at x = 5 moving
  left reach x = -2. With `MAX_VEL` = 6 it reaches x = -1
  (`Scenarios.MissedBallScoresForRight`).
- Configuration. The documented intent asks for overridable parameters. ping.py
  uses module constants, and so does `Config`.

## Model

| member | source | states |
|---|---|---|
| Entities.PaddleMoved | ping.py:58-62 | moving up lowers y by VEL, moving down raises it by VEL, and nothing but y changes |
| Entities.PaddleReset | ping.py:67-69 | x and y become the original position and nothing else changes |
| Entities.MoveThenMoveBack | ping.py:58-62 | a move followed by the opposite move restores the paddle |
| Entities.ResetForgetsMoves | ping.py:58-69 | the reset position does not depend on earlier moves, and reset is idempotent |
| Entities.BallMoved | ping.py:101-103 | the position advances by the velocity and the velocity, radius and origin are kept |
| Entities.BallReset | ping.py:109-113 | the ball returns to its origin with y_vel 0 and x_vel negated |
| Entities.ResetTwiceKeepsDirection | ping.py:109-113 | two resets leave the ball at its origin with y_vel 0 and its earlier x_vel |
| Entities.Paddle.constructor | ping.py:37-41 | a new paddle is at its given position, which is also its reset position |
| Entities.Paddle.Move | ping.py:58-62 | the object's new state is PaddleMoved of its old state |
| Entities.Paddle.Reset | ping.py:67-69 | the object's new state is PaddleReset of its old state |
| Entities.Ball.constructor | ping.py:84-89 | a new ball is at its origin with x_vel = MAX_VEL and y_vel = 0 |
| Entities.Ball.Move | ping.py:101-103 | the object's new state is BallMoved of its old state |
| Entities.Ball.Reset | ping.py:109-113 | the object's new state is BallReset of its old state |
| Input.Steer | ping.py:194-197 | keeps a paddle inside 0 <= y <= HEIGHT - height; either key alone moves it exactly when the result stays on screen; no keys leave it where it was; with both keys the moves cancel when the up move fits and the paddle is on screen, and when the up move does not fit the paddle still moves down by VEL if that fits; only y changes |
| Input.HandlePaddleMovement | ping.py:193-202 | the left paddle follows only w/s and the right paddle only up/down, each as Steer says; the ball is not touched |
| Collision.WallBounce | ping.py:156-159 | y_vel is negated exactly once when the ball touches the bottom or the top wall (or both), kept otherwise; nothing else changes |
| Collision.Deflection | ping.py:166-170 | the new y_vel, computed in ping.py's order of operations, equals MAX_VEL times (ball.y - paddle centre) / (height / 2), the offset in half paddle heights; DeflectionRange gives its bounds and end values |
| Collision.DeflectionRange | ping.py:162-170 | for a ball in the paddle's band the new y_vel lies in [-MAX_VEL, MAX_VEL]; it is 0 at the centre, -MAX_VEL at the top edge and MAX_VEL at the bottom edge |
| Collision.PaddleBounce | ping.py:161-181 | the paddle step never moves the ball; a ball with x_vel < 0 is compared only with the left paddle and one with x_vel >= 0 only with the right paddle; on a hit x_vel is negated and y_vel becomes the Deflection, and otherwise the ball is unchanged |
| Collision.Collide | ping.py:150-181 | the position, radius and origin are never changed; x_vel is kept or negated; for a ball moving left it is negated exactly when it hits the left paddle, for one moving right exactly when it hits the right paddle; y_vel becomes the deflection on a hit and the wall result otherwise |
| Collision.OnlyApproachedPaddleMatters | ping.py:161-181 | a ball with x_vel < 0 is unaffected by the right paddle, and one with x_vel >= 0 by the left paddle |
| Collision.BounceBoundsVerticalSpeed | ping.py:161-181 | after a paddle hit the ball's y_vel lies in [-MAX_VEL, MAX_VEL] |
| Collision.HandleCollision | ping.py:150-181 | the ball's new state is Collide of its old state and the two paddles; the paddles are not modified |
| Match.Initial | ping.py:214-222 | the starting state satisfies Valid, with the ball serving right at MAX_VEL with y_vel 0 and both scores 0 |
| Match.Physics | ping.py:234-238 | the paddles are each Steer of their own keys and stay on screen; the ball ends at its old position plus its velocity, since collision does not move it; x_vel is kept or negated; the scores are untouched; Step and FrameScoring build on it |
| Match.Scored | ping.py:242-247 | right_score grows by 1 exactly when ball.x < 0 and left_score by 1 exactly when ball.x > WIDTH; at most one grows; the ball is reset exactly when it left the screen; the paddles are untouched |
| Match.Winner | ping.py:254-259 | the left player wins exactly when left_score >= WINNING_SCORE; the right player exactly when right_score >= WINNING_SCORE and the left player has not won |
| Match.AfterWin | ping.py:265-275 | without a winner the state is unchanged; after a win both scores are 0, both paddles are at their original positions, and the ball is at its origin with y_vel 0 and x_vel negated once more; WinResetsMatch states the frame-level consequence |
| Match.Step | ping.py:234-275 | a frame keeps paddle heights and preserves Valid: paddles on screen, abs(x_vel) = MAX_VEL, ball.x within [0, WIDTH] and a whole number of MAX_VEL steps from its origin, both scores in [0, WINNING_SCORE) |
| Match.Play | ping.py:224-275 | any number of frames from a Valid state ends in a Valid state |
| Match.WinResetsMatch | ping.py:242-275 | from a Valid state a win happens exactly when a score reaches WINNING_SCORE and only in a frame in which the ball left the screen; it resets both paddles to their originals, both scores to 0 and the ball to its origin with y_vel 0 and with the x_vel it had after collision |
| Match.FrameScoring | ping.py:237-259 | in a frame without a win the right player scores exactly when the ball is past the left edge after collision handling and the left player exactly when it is past the right edge, never both, each by 1, followed by a ball reset |
| Match.Frame | ping.py:234-275 | the objects and scores after one iteration are Step of those before, and the returned outcome is the win check's verdict |
| Match.RunMatch | ping.py:206-275 | the scores after running the loop over any key snapshots are those of Play from the initial state, and both lie in [0, WINNING_SCORE) |
| Scenarios.MissedBallScoresForRight | ping.py:237-244 | a ball at (5, 300) moving left past a paddle parked at the top scores for the right player and is served right from (450, 300) with y_vel 0 |
| Scenarios.BothKeysAtTopMovesDown | ping.py:194-197 | a left paddle at y = 0 with w and s both held moves down to y = VEL |
| Scenarios.CentreHitLeavesFlat | ping.py:161-170 | a ball striking the left paddle at its centre leaves to the right with y_vel 0 |
| Scenarios.TopWallTurnsBallDown | ping.py:158-159 | a ball touching the top wall gets its y_vel negated and keeps x_vel |
| Scenarios.MatchPointScores | ping.py:245-256 | a ball passing the right edge at 9 points gives the left player the tenth point and the win |
| Scenarios.TenthPointWinsAndResets | ping.py:265-275 | that winning frame ends in exactly the initial state of the match |

## Left out

- Drawing: `Paddle.draw`, `Ball.draw`, the module-level `draw` with the score text and the centre line, and the win banner (ping.py:48-50, 95-96, 123-141, 266-269). They are pygame presentation. `Frame` returns which player won instead of showing the banner.
- pygame set-up and shut-down (`pygame.init`, the window, the font, `pygame.quit`). These are calls into a foreign library.
- Event polling and `pygame.key.get_pressed`. Each frame's keys are a `Keys` value, and a run is a finite sequence of them. The quit event ends the loop after the frame in which it is seen, so that frame is the last element of the sequence.
- `clock.tick(FPS)` and `pygame.time.delay(5000)`. They only block for real time. The delay is a no-op in `Frame`; the resets after it are modelled.
- IEEE floating point. `ball.y`, `y_vel` and the deflection use exact reals, so no rounding behaviour is claimed.
- Input.HandlePaddleMovement: requires the two paddles to be distinct objects. The game always passes two different paddles; the aliased case is not modelled.
- Collision.Collide: requires both paddle heights to be non-zero. With a zero height ping.py divides by zero on a hit and raises an exception; that crash is not modelled. `HandleCollision`, `Physics`, `Step`, `Play` and `Frame` carry the same requirement.
- Match.Step: the invariant `Valid` is stated for paddles of positive height whose reset positions are on screen and for a ball whose origin is on the table, as in the game's own set-up. States outside it are still stepped, but nothing is claimed about them.
