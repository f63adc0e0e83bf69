/** Ball response to the walls and the paddles (handle_collision, ping.py:150-181). */
module Collision {
  import opened Config
  import opened Entities

  /** The ball touches the bottom or the top wall. */
  predicate TouchesWall(b: BallState) {
    b.y + b.radius as real >= HEIGHT as real || b.y - b.radius as real <= 0.0
  }

  /** Wall step: the bottom test and the top test are joined by `elif`, so y_vel is
      negated once when the ball touches either wall (or both) and kept otherwise. */
  function WallBounce(b: BallState): (r: BallState)
    ensures r.yVel == if TouchesWall(b) then -b.yVel else b.yVel
    ensures r.(yVel := b.yVel) == b
  {
    if b.y + b.radius as real >= HEIGHT as real then b.(yVel := b.yVel * -1.0)
    else if b.y - b.radius as real <= 0.0 then b.(yVel := b.yVel * -1.0)
    else b
  }

  /** Band test: the ball's centre lies within the paddle's vertical extent. */
  predicate InBand(b: BallState, p: PaddleState) {
    b.y >= p.y as real && b.y <= (p.y + p.height) as real
  }

  /** The ball's left edge has reached the left paddle's right edge. */
  predicate HitsLeft(b: BallState, p: PaddleState) {
    InBand(b, p) && b.x - b.radius <= p.x + p.width
  }

  /** The ball's right edge has reached the right paddle's left edge. */
  predicate HitsRight(b: BallState, p: PaddleState) {
    InBand(b, p) && b.x + b.radius >= p.x
  }

  /** The paddle's vertical centre, p.y + p.height / 2 with true division. */
  function MiddleY(p: PaddleState): real {
    p.y as real + (p.height as real) / 2.0
  }

  /** The new y_vel after a paddle hit, computed in ping.py's order of operations.
      It is linear in the offset of the ball from the paddle's centre: MAX_VEL times
      that offset measured in half paddle heights, negative above the centre. */
  function Deflection(b: BallState, p: PaddleState): (v: real)
    requires p.height != 0
    ensures v == (MAX_VEL as real) * ((b.y - MiddleY(p)) / ((p.height as real) / 2.0))
  {
    var differenceInY := MiddleY(p) - b.y;
    var reductionFactor := ((p.height as real) / 2.0) / (MAX_VEL as real);
    -1.0 * (differenceInY / reductionFactor)
  }

  /** Within the band the deflection runs from -MAX_VEL at the paddle's top edge,
      through 0 at its centre, to MAX_VEL at its bottom edge. */
  lemma DeflectionRange(b: BallState, p: PaddleState)
    requires p.height > 0 && InBand(b, p)
    ensures -(MAX_VEL as real) <= Deflection(b, p) <= MAX_VEL as real
    ensures b.y == MiddleY(p) ==> Deflection(b, p) == 0.0
    ensures b.y == p.y as real ==> Deflection(b, p) == -(MAX_VEL as real)
    ensures b.y == (p.y + p.height) as real ==> Deflection(b, p) == MAX_VEL as real
  {
  }

  /** Paddle step: only the paddle the ball travels toward is checked; on a hit the
      horizontal direction reverses and y_vel is replaced by the deflection. */
  function PaddleBounce(b: BallState, left: PaddleState, right: PaddleState): (r: BallState)
    requires left.height != 0 && right.height != 0
    ensures r.(xVel := b.xVel, yVel := b.yVel) == b
    ensures b.xVel < 0 ==> r == (if HitsLeft(b, left) then b.(xVel := -b.xVel, yVel := Deflection(b, left)) else b)
    ensures b.xVel >= 0 ==> r == (if HitsRight(b, right) then b.(xVel := -b.xVel, yVel := Deflection(b, right)) else b)
  {
    if b.xVel < 0 then
      if HitsLeft(b, left) then b.(xVel := b.xVel * -1, yVel := Deflection(b, left)) else b
    else
      if HitsRight(b, right) then b.(xVel := b.xVel * -1, yVel := Deflection(b, right)) else b
  }

  /** handle_collision: the wall step, then the paddle step. It never moves the ball
      and only ever reverses x_vel; it reverses it exactly when the ball hits the
      paddle it is travelling toward. */
  function Collide(b: BallState, left: PaddleState, right: PaddleState): (r: BallState)
    requires left.height != 0 && right.height != 0
    ensures r.(xVel := b.xVel, yVel := b.yVel) == b
    ensures r.xVel == b.xVel || r.xVel == -b.xVel
    ensures b.xVel < 0 ==> (r.xVel == -b.xVel <==> HitsLeft(b, left))
    ensures b.xVel > 0 ==> (r.xVel == -b.xVel <==> HitsRight(b, right))
    ensures r.yVel == if b.xVel < 0 && HitsLeft(b, left) then Deflection(b, left)
                      else if b.xVel >= 0 && HitsRight(b, right) then Deflection(b, right)
                      else WallBounce(b).yVel
  {
    PaddleBounce(WallBounce(b), left, right)
  }

  /** A ball moving left ignores the right paddle, and one moving right (or not at
      all horizontally) ignores the left paddle. */
  lemma OnlyApproachedPaddleMatters(b: BallState, left: PaddleState, left': PaddleState,
                                    right: PaddleState, right': PaddleState)
    requires left.height != 0 && right.height != 0 && left'.height != 0 && right'.height != 0
    ensures b.xVel < 0 ==> Collide(b, left, right) == Collide(b, left, right')
    ensures b.xVel >= 0 ==> Collide(b, left, right) == Collide(b, left', right)
  {
  }

  /** A hit keeps the vertical speed within [-MAX_VEL, MAX_VEL]: the ball leaves a
      paddle no steeper than MAX_VEL per frame. */
  lemma BounceBoundsVerticalSpeed(b: BallState, left: PaddleState, right: PaddleState)
    requires left.height > 0 && right.height > 0
    requires (b.xVel < 0 && HitsLeft(b, left)) || (b.xVel >= 0 && HitsRight(b, right))
    ensures -(MAX_VEL as real) <= Collide(b, left, right).yVel <= MAX_VEL as real
  {
    if b.xVel < 0 {
      DeflectionRange(b, left);
    } else {
      DeflectionRange(b, right);
    }
  }

  method HandleCollision(ball: Ball, left: Paddle, right: Paddle)
    requires left.height != 0 && right.height != 0
    modifies ball
    ensures ball.Model() == Collide(old(ball.Model()), left.Model(), right.Model())
  {
    if ball.y + ball.radius as real >= HEIGHT as real {
      ball.yVel := ball.yVel * -1.0;
    } else if ball.y - ball.radius as real <= 0.0 {
      ball.yVel := ball.yVel * -1.0;
    }

    if ball.xVel < 0 {
      if ball.y >= left.y as real && ball.y <= (left.y + left.height) as real {
        if ball.x - ball.radius <= left.x + left.width {
          ball.xVel := ball.xVel * -1;
          var middleY := left.y as real + (left.height as real) / 2.0;
          var differenceInY := middleY - ball.y;
          var reductionFactor := ((left.height as real) / 2.0) / (MAX_VEL as real);
          var yVel := differenceInY / reductionFactor;
          ball.yVel := -1.0 * yVel;
        }
      }
    } else {
      if ball.y >= right.y as real && ball.y <= (right.y + right.height) as real {
        if ball.x + ball.radius >= right.x {
          ball.xVel := ball.xVel * -1;
          var middleY := right.y as real + (right.height as real) / 2.0;
          var differenceInY := middleY - ball.y;
          var reductionFactor := ((right.height as real) / 2.0) / (MAX_VEL as real);
          var yVel := differenceInY / reductionFactor;
          ball.yVel := -1.0 * yVel;
        }
      }
    }
  }
}
