/** Keyboard control of the paddles (handle_paddle_movement, ping.py:193-202). */
module Input {
  import opened Config
  import opened Entities

  /** The four keys read each frame: w/s drive the left paddle, the up/down arrows
      the right one. */
  datatype Keys = Keys(w: bool, s: bool, up: bool, down: bool)

  /** One paddle under its two keys. The up key is honoured first, and only if the
      paddle's top would stay on screen; the down key is then checked against the
      position the up key left, and honoured only if the bottom would stay on screen. */
  function Steer(p: PaddleState, upHeld: bool, downHeld: bool): (r: PaddleState)
    ensures InBounds(p) ==> InBounds(r)
    ensures r.(y := p.y) == p
    // either key alone: applied exactly when the result stays on screen
    ensures upHeld && !downHeld ==> r.y == if p.y - PADDLE_VEL >= 0 then p.y - PADDLE_VEL else p.y
    ensures !upHeld && downHeld ==>
              r.y == if p.y + PADDLE_VEL + p.height <= HEIGHT then p.y + PADDLE_VEL else p.y
    ensures !upHeld && !downHeld ==> r == p
    // both keys: the two moves cancel whenever the up move fits and the paddle is on
    // screen; when the up move does not fit, the down move is still made if it fits
    ensures upHeld && downHeld && p.y - PADDLE_VEL >= 0 && p.y + p.height <= HEIGHT ==> r == p
    ensures upHeld && downHeld && p.y - PADDLE_VEL >= 0 && p.y + p.height > HEIGHT ==>
              r.y == p.y - PADDLE_VEL
    ensures upHeld && downHeld && p.y - PADDLE_VEL < 0 ==>
              r.y == if p.y + PADDLE_VEL + p.height <= HEIGHT then p.y + PADDLE_VEL else p.y
  {
    var afterUp := if upHeld && p.y - PADDLE_VEL >= 0 then PaddleMoved(p, true) else p;
    if downHeld && afterUp.y + PADDLE_VEL + afterUp.height <= HEIGHT
    then PaddleMoved(afterUp, false)
    else afterUp
  }

  /** Each paddle follows only its own two keys. */
  method HandlePaddleMovement(keys: Keys, left: Paddle, right: Paddle)
    requires left != right
    modifies left, right
    ensures left.Model() == Steer(old(left.Model()), keys.w, keys.s)
    ensures right.Model() == Steer(old(right.Model()), keys.up, keys.down)
  {
    if keys.w && left.y - PADDLE_VEL >= 0 {
      left.Move(true);
    }
    if keys.s && left.y + PADDLE_VEL + left.height <= HEIGHT {
      left.Move(false);
    }

    if keys.up && right.y - PADDLE_VEL >= 0 {
      right.Move(true);
    }
    if keys.down && right.y + PADDLE_VEL + right.height <= HEIGHT {
      right.Move(false);
    }
  }
}
