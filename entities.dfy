/** The two moving entities, Paddle and Ball (ping.py:25-113): their values, the
    value-level meaning of move/reset, and the classes whose methods update the
    fields in place. */
module Entities {
  import opened Config

  /** A paddle: top-left corner (x, y), size, and the position reset() returns to. */
  datatype PaddleState = PaddleState(x: int, y: int, width: int, height: int,
                                     originalX: int, originalY: int)

  /** The screen-bounds invariant a paddle keeps under keyboard control. */
  predicate InBounds(p: PaddleState) {
    0 <= p.y <= HEIGHT - p.height
  }

  /** Paddle.move: up subtracts VEL (the y axis points down), otherwise adds VEL;
      nothing else changes, and moving back the other way undoes the move. */
  function PaddleMoved(p: PaddleState, up: bool): (r: PaddleState)
    ensures r.y == p.y - PADDLE_VEL <==> up
    ensures r.y == p.y + PADDLE_VEL <==> !up
    ensures r.(y := p.y) == p
  {
    if up then p.(y := p.y - PADDLE_VEL) else p.(y := p.y + PADDLE_VEL)
  }

  /** Paddle.reset: the position becomes the original one and nothing else changes. */
  function PaddleReset(p: PaddleState): (r: PaddleState)
    ensures r.x == p.originalX && r.y == p.originalY
    ensures r.(x := p.x, y := p.y) == p
  {
    p.(x := p.originalX, y := p.originalY)
  }

  lemma MoveThenMoveBack(p: PaddleState, up: bool)
    ensures PaddleMoved(PaddleMoved(p, up), !up) == p
  {
  }

  lemma ResetForgetsMoves(p: PaddleState, up: bool)
    ensures PaddleReset(PaddleMoved(p, up)) == PaddleReset(p)
    ensures PaddleReset(PaddleReset(p)) == PaddleReset(p)
  {
  }

  /** A ball: its centre, radius, velocity and the centre reset() returns to. The
      vertical quantities are reals because a paddle hit computes y_vel with true
      division; x and x_vel stay integers. */
  datatype BallState = BallState(x: int, y: real, radius: int, xVel: int, yVel: real,
                                 originalX: int, originalY: real)

  /** Ball.move: the velocity is added to the position and the velocity is kept. */
  function BallMoved(b: BallState): (r: BallState)
    ensures r.x - b.x == b.xVel && r.y - b.y == b.yVel
    ensures r.(x := b.x, y := b.y) == b
  {
    b.(x := b.x + b.xVel, y := b.y + b.yVel)
  }

  /** Ball.reset: back to the original centre, no vertical speed, and the horizontal
      direction reversed with its magnitude kept. */
  function BallReset(b: BallState): (r: BallState)
    ensures r.x == b.originalX && r.y == b.originalY
    ensures r.yVel == 0.0 && r.xVel == -b.xVel
    ensures r.radius == b.radius && r.originalX == b.originalX && r.originalY == b.originalY
  {
    b.(x := b.originalX, y := b.originalY, yVel := 0.0, xVel := b.xVel * -1)
  }

  /** Two resets in a row put the ball at its origin with the direction it had before. */
  lemma ResetTwiceKeepsDirection(b: BallState)
    ensures BallReset(BallReset(b)) == b.(x := b.originalX, y := b.originalY, yVel := 0.0)
  {
  }

  class Paddle {
    var x: int
    var y: int
    var width: int
    var height: int
    var originalX: int
    var originalY: int

    /** The value this object currently holds. */
    function Model(): PaddleState
      reads this
    {
      PaddleState(x, y, width, height, originalX, originalY)
    }

    constructor (x: int, y: int, width: int, height: int)
      ensures Model() == PaddleState(x, y, width, height, x, y)
    {
      this.x, this.originalX := x, x;
      this.y, this.originalY := y, y;
      this.width := width;
      this.height := height;
    }

    method Move(up: bool)
      modifies this
      ensures Model() == PaddleMoved(old(Model()), up)
    {
      if up {
        y := y - PADDLE_VEL;
      } else {
        y := y + PADDLE_VEL;
      }
    }

    method Reset()
      modifies this
      ensures Model() == PaddleReset(old(Model()))
    {
      x := originalX;
      y := originalY;
    }
  }

  class Ball {
    var x: int
    var y: real
    var radius: int
    var xVel: int
    var yVel: real
    var originalX: int
    var originalY: real

    /** The value this object currently holds. */
    function Model(): BallState
      reads this
    {
      BallState(x, y, radius, xVel, yVel, originalX, originalY)
    }

    /** A new ball serves to the right at full speed with no vertical speed. */
    constructor (x: int, y: int, radius: int)
      ensures Model() == BallState(x, y as real, radius, MAX_VEL, 0.0, x, y as real)
    {
      this.x, this.originalX := x, x;
      this.y, this.originalY := y as real, y as real;
      this.radius := radius;
      this.xVel := MAX_VEL;
      this.yVel := 0.0;
    }

    method Move()
      modifies this
      ensures Model() == BallMoved(old(Model()))
    {
      x := x + xVel;
      y := y + yVel;
    }

    method Reset()
      modifies this
      ensures Model() == BallReset(old(Model()))
    {
      x := originalX;
      y := originalY;
      yVel := 0.0;
      xVel := xVel * -1;
    }
  }
}
