/** The match controller: one pass of the main loop (ping.py:234-275, without the
    drawing, the event polling and the delay) and the loop itself. */
module Match {
  import opened Config
  import opened Entities
  import opened Input
  import opened Collision

  /** Everything the main loop keeps between frames. */
  datatype Game = Game(left: PaddleState, right: PaddleState, ball: BallState,
                       leftScore: int, rightScore: int)

  /** What the win check decided in a frame: the banner ping.py would show. */
  datatype Outcome = Playing | LeftWon | RightWon

  /** The state the main loop starts from (ping.py:214-222). */
  function Initial(): (g: Game)
    ensures Valid(g)
    ensures g.ball.xVel == MAX_VEL && g.ball.yVel == 0.0
    ensures g.leftScore == 0 && g.rightScore == 0
  {
    Game(PaddleState(LEFT_PADDLE_X, PADDLE_START_Y, PADDLE_WIDTH, PADDLE_HEIGHT,
                     LEFT_PADDLE_X, PADDLE_START_Y),
         PaddleState(RIGHT_PADDLE_X, PADDLE_START_Y, PADDLE_WIDTH, PADDLE_HEIGHT,
                     RIGHT_PADDLE_X, PADDLE_START_Y),
         BallState(BALL_START_X, BALL_START_Y as real, BALL_RADIUS, MAX_VEL, 0.0,
                   BALL_START_X, BALL_START_Y as real),
         0, 0)
  }

  /** What holds between frames: both paddles (and their reset positions) on screen,
      with positive height; the ball at full horizontal speed, on the table, a whole
      number of steps away from its origin; both scores below the winning score. */
  predicate Valid(g: Game) {
    && InBounds(g.left) && InBounds(PaddleReset(g.left)) && g.left.height > 0
    && InBounds(g.right) && InBounds(PaddleReset(g.right)) && g.right.height > 0
    && (g.ball.xVel == MAX_VEL || g.ball.xVel == -MAX_VEL)
    && 0 <= g.ball.originalX <= WIDTH
    && 0 <= g.ball.x <= WIDTH
    && (g.ball.x - g.ball.originalX) % MAX_VEL == 0
    && 0 <= g.leftScore < WINNING_SCORE
    && 0 <= g.rightScore < WINNING_SCORE
  }

  /** Input, then Ball.move, then handle_collision. The collision is resolved at the
      moved position and does not move the ball again; the paddles follow their own
      keys only and stay on screen; the scores are untouched. */
  function Physics(g: Game, k: Keys): (r: Game)
    requires g.left.height != 0 && g.right.height != 0
    ensures r.ball.x == g.ball.x + g.ball.xVel && r.ball.y == g.ball.y + g.ball.yVel
    ensures r.ball.xVel == g.ball.xVel || r.ball.xVel == -g.ball.xVel
    ensures r.ball.radius == g.ball.radius && r.ball.originalX == g.ball.originalX
    ensures r.ball.originalY == g.ball.originalY
    ensures r.left == Steer(g.left, k.w, k.s) && r.right == Steer(g.right, k.up, k.down)
    ensures InBounds(g.left) ==> InBounds(r.left)
    ensures InBounds(g.right) ==> InBounds(r.right)
    ensures r.leftScore == g.leftScore && r.rightScore == g.rightScore
  {
    var left := Steer(g.left, k.w, k.s);
    var right := Steer(g.right, k.up, k.down);
    g.(left := left, right := right, ball := Collide(BallMoved(g.ball), left, right))
  }

  /** Scoring: a ball past the left edge is a point for the right player, one past
      the right edge a point for the left player, and either is followed by a ball
      reset. At most one score grows, by exactly one. */
  function Scored(g: Game): (r: Game)
    ensures r.rightScore == (if g.ball.x < 0 then g.rightScore + 1 else g.rightScore)
    ensures r.leftScore == (if g.ball.x > WIDTH then g.leftScore + 1 else g.leftScore)
    ensures r.leftScore == g.leftScore || r.rightScore == g.rightScore
    ensures r.ball == if 0 <= g.ball.x <= WIDTH then g.ball else BallReset(g.ball)
    ensures r.left == g.left && r.right == g.right
  {
    if g.ball.x < 0 then
      g.(rightScore := g.rightScore + 1, ball := BallReset(g.ball))
    else if g.ball.x > WIDTH then
      g.(leftScore := g.leftScore + 1, ball := BallReset(g.ball))
    else
      g
  }

  /** The win check; the left player is checked first. */
  function Winner(g: Game): (o: Outcome)
    ensures o == LeftWon <==> g.leftScore >= WINNING_SCORE
    ensures o == RightWon <==> g.leftScore < WINNING_SCORE <= g.rightScore
  {
    if g.leftScore >= WINNING_SCORE then LeftWon
    else if g.rightScore >= WINNING_SCORE then RightWon
    else Playing
  }

  /** After a win (and the banner and the pause) the ball and both paddles are reset
      and both scores return to zero; without a win nothing changes. */
  function AfterWin(g: Game): (r: Game)
    ensures Winner(g) == Playing ==> r == g
    ensures Winner(g) != Playing ==>
              && r.leftScore == 0 && r.rightScore == 0
              && r.left.x == g.left.originalX && r.left.y == g.left.originalY
              && r.right.x == g.right.originalX && r.right.y == g.right.originalY
              && r.ball.x == g.ball.originalX && r.ball.y == g.ball.originalY
              && r.ball.yVel == 0.0 && r.ball.xVel == -g.ball.xVel
  {
    if Winner(g) == Playing then g
    else Game(PaddleReset(g.left), PaddleReset(g.right), BallReset(g.ball), 0, 0)
  }

  /** The state just before the win check. */
  function BeforeWinCheck(g: Game, k: Keys): Game
    requires g.left.height != 0 && g.right.height != 0
  {
    Scored(Physics(g, k))
  }

  /** One frame of the main loop. It keeps paddle heights, and it keeps Valid: after
      every frame both scores are below the winning score. */
  function Step(g: Game, k: Keys): (r: Game)
    requires g.left.height != 0 && g.right.height != 0
    ensures r.left.height == g.left.height && r.right.height == g.right.height
    ensures Valid(g) ==> Valid(r)
  {
    AfterWin(Scored(Physics(g, k)))
  }

  /** The whole main loop over the key snapshots of its frames, one per iteration. */
  function Play(g: Game, frames: seq<Keys>): (r: Game)
    requires g.left.height != 0 && g.right.height != 0
    ensures r.left.height == g.left.height && r.right.height == g.right.height
    ensures Valid(g) ==> Valid(r)
    decreases |frames|
  {
    if frames == [] then g
    else Step(Play(g, frames[..|frames| - 1]), frames[|frames| - 1])
  }

  /** A win happens only in a frame that scored, exactly when a score first reaches
      the winning score. It resets both paddles to their originals, both scores to 0
      and the ball to its origin with y_vel 0; since the ball was already reset by
      the point, x_vel ends as it was after handle_collision. */
  lemma WinResetsMatch(g: Game, k: Keys)
    requires Valid(g)
    ensures var c := Physics(g, k);
            var s := Scored(c);
            var r := Step(g, k);
            && (Winner(s) == LeftWon <==> s.leftScore == WINNING_SCORE)
            && (Winner(s) == RightWon <==> s.rightScore == WINNING_SCORE)
            && (Winner(s) != Playing ==>
                  && (c.ball.x < 0 || c.ball.x > WIDTH)
                  && r.leftScore == 0 && r.rightScore == 0
                  && r.left == PaddleReset(g.left) && r.right == PaddleReset(g.right)
                  && r.ball.x == g.ball.originalX && r.ball.y == g.ball.originalY
                  && r.ball.yVel == 0.0 && r.ball.xVel == c.ball.xVel)
  {
  }

  /** In a frame without a win, the right player gains a point exactly when the ball
      ends up past the left edge after collision handling, the left player exactly
      when it ends up past the right edge, never both, and the ball is then served
      from its origin. */
  lemma FrameScoring(g: Game, k: Keys)
    requires g.left.height != 0 && g.right.height != 0
    ensures var c := Physics(g, k);
            var r := Step(g, k);
            Winner(Scored(c)) == Playing ==>
              && r.rightScore == (if c.ball.x < 0 then g.rightScore + 1 else g.rightScore)
              && r.leftScore == (if c.ball.x > WIDTH then g.leftScore + 1 else g.leftScore)
              && (r.leftScore == g.leftScore || r.rightScore == g.rightScore)
              && (c.ball.x < 0 || c.ball.x > WIDTH ==> r.ball == BallReset(c.ball))
  {
  }

  /** The current state of the main loop's objects and score variables. */
  function Snapshot(left: Paddle, right: Paddle, ball: Ball, leftScore: int, rightScore: int): Game
    reads left, right, ball
  {
    Game(left.Model(), right.Model(), ball.Model(), leftScore, rightScore)
  }

  /** One iteration of the main loop after the key snapshot is taken. It returns the
      new scores and what the win check decided. */
  method Frame(keys: Keys, left: Paddle, right: Paddle, ball: Ball, leftScore: int, rightScore: int)
    returns (newLeftScore: int, newRightScore: int, outcome: Outcome)
    requires left != right
    requires left.height != 0 && right.height != 0
    modifies left, right, ball
    ensures Snapshot(left, right, ball, newLeftScore, newRightScore)
            == Step(old(Snapshot(left, right, ball, leftScore, rightScore)), keys)
    ensures outcome == Winner(BeforeWinCheck(old(Snapshot(left, right, ball, leftScore, rightScore)), keys))
  {
    HandlePaddleMovement(keys, left, right);
    ball.Move();
    HandleCollision(ball, left, right);

    newLeftScore, newRightScore := leftScore, rightScore;
    if ball.x < 0 {
      newRightScore := newRightScore + 1;
      ball.Reset();
    } else if ball.x > WIDTH {
      newLeftScore := newLeftScore + 1;
      ball.Reset();
    }

    outcome := Playing;
    if newLeftScore >= WINNING_SCORE {
      outcome := LeftWon;
    } else if newRightScore >= WINNING_SCORE {
      outcome := RightWon;
    }

    if outcome != Playing {
      // the banner and the five-second pause are presentation only
      ball.Reset();
      left.Reset();
      right.Reset();
      newLeftScore := 0;
      newRightScore := 0;
    }
  }

  /** main: build the paddles and the ball, then run one frame per key snapshot. The
      scores it ends with are those of Play and are both below the winning score. */
  method RunMatch(frames: seq<Keys>) returns (leftScore: int, rightScore: int)
    ensures leftScore == Play(Initial(), frames).leftScore
    ensures rightScore == Play(Initial(), frames).rightScore
    ensures 0 <= leftScore < WINNING_SCORE && 0 <= rightScore < WINNING_SCORE
  {
    var leftPaddle := new Paddle(LEFT_PADDLE_X, PADDLE_START_Y, PADDLE_WIDTH, PADDLE_HEIGHT);
    var rightPaddle := new Paddle(RIGHT_PADDLE_X, PADDLE_START_Y, PADDLE_WIDTH, PADDLE_HEIGHT);
    var ball := new Ball(BALL_START_X, BALL_START_Y, BALL_RADIUS);
    leftScore, rightScore := 0, 0;

    var i := 0;
    while i < |frames|
      invariant 0 <= i <= |frames|
      invariant leftPaddle != rightPaddle
      invariant fresh(leftPaddle) && fresh(rightPaddle) && fresh(ball)
      invariant Snapshot(leftPaddle, rightPaddle, ball, leftScore, rightScore)
                == Play(Initial(), frames[..i])
    {
      assert frames[..i + 1][..i] == frames[..i];
      var outcome;
      leftScore, rightScore, outcome := Frame(frames[i], leftPaddle, rightPaddle, ball,
                                             leftScore, rightScore);
      i := i + 1;
    }
    assert frames[..i] == frames;
  }
}
