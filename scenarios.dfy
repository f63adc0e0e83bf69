/** Concrete frames worked through the model, one per situation the game is meant
    to handle. Paddles are 20 x 100 at x = 10 and x = 870; the ball starts at
    (450, 300) with radius 7. */
module Scenarios {
  import opened Config
  import opened Entities
  import opened Input
  import opened Collision
  import opened Match

  const NoKeys: Keys := Keys(false, false, false, false)

  const LeftAtStart: PaddleState := Initial().left
  const RightAtStart: PaddleState := Initial().right

  /** A left paddle at the very top with both of its keys held: the up move does not
      fit, so only the down move is made and the paddle drops by VEL. */
  lemma BothKeysAtTopMovesDown()
    ensures Steer(LeftAtStart.(y := 0), true, true) == LeftAtStart.(y := PADDLE_VEL)
  {
  }

  /** A ball at (5, 300) moving left that misses a left paddle parked at the top
      gives the right player a point and is served again from the centre, to the
      right. */
  lemma MissedBallScoresForRight()
    ensures var g := Game(LeftAtStart.(y := 0), RightAtStart,
                          BallState(5, 300.0, 7, -6, 0.0, 450, 300.0), 0, 0);
            Step(g, NoKeys) == g.(rightScore := 1, ball := BallState(450, 300.0, 7, 6, 0.0, 450, 300.0))
  {
    var g := Game(LeftAtStart.(y := 0), RightAtStart,
                  BallState(5, 300.0, 7, -6, 0.0, 450, 300.0), 0, 0);
    var moved := BallMoved(g.ball);
    assert moved.x == -1 && moved.y == 300.0;
    assert !HitsLeft(moved, g.left);
    var c := Physics(g, NoKeys);
    assert c == g.(ball := moved);
    assert Scored(c) == c.(rightScore := 1, ball := BallReset(moved));
  }

  /** A ball meeting the left paddle at its centre leaves straight, to the right. */
  lemma CentreHitLeavesFlat()
    ensures var g := Game(LeftAtStart, RightAtStart,
                          BallState(36, 300.0, 7, -6, 0.0, 450, 300.0), 0, 0);
            Step(g, NoKeys) == g.(ball := BallState(30, 300.0, 7, 6, 0.0, 450, 300.0))
  {
    var g := Game(LeftAtStart, RightAtStart,
                  BallState(36, 300.0, 7, -6, 0.0, 450, 300.0), 0, 0);
    var moved := BallMoved(g.ball);
    assert moved.x == 30 && moved.y == 300.0 == MiddleY(g.left);
    assert HitsLeft(moved, g.left);
    DeflectionRange(moved, g.left);
    var c := Physics(g, NoKeys);
    assert c == g.(ball := moved.(xVel := 6, yVel := 0.0));
    assert Scored(c) == c;
  }

  /** A ball touching the top wall turns downward and keeps its horizontal speed. */
  lemma TopWallTurnsBallDown()
    ensures var b := BallState(450, 8.0, 7, 6, -2.0, 450, 300.0);
            var r := Collide(BallMoved(b), LeftAtStart, RightAtStart);
            r.yVel == 2.0 && r.xVel == 6
  {
  }

  /** The state a match is in one frame before the left player's tenth point: the
      ball is about to pass a right paddle that is parked at the top. */
  function MatchPoint(): Game {
    Game(LeftAtStart, RightAtStart.(y := 0), BallState(898, 300.0, 7, 6, 0.0, 450, 300.0), 9, 4)
  }

  /** In that frame the left player scores and wins. */
  lemma MatchPointScores()
    ensures BeforeWinCheck(MatchPoint(), NoKeys)
            == MatchPoint().(leftScore := 10, ball := BallState(450, 300.0, 7, -6, 0.0, 450, 300.0))
    ensures Winner(BeforeWinCheck(MatchPoint(), NoKeys)) == LeftWon
  {
    var g := MatchPoint();
    var moved := BallMoved(g.ball);
    assert moved.x == 904 && moved.y == 300.0;
    assert !HitsRight(moved, g.right);
    var c := Physics(g, NoKeys);
    assert c == g.(ball := moved);
    assert Scored(c) == c.(leftScore := 10, ball := BallReset(moved));
  }

  /** The tenth point ends the match: both scores go back to 0 and everything
      returns to its starting place, the ball serving right again. */
  lemma TenthPointWinsAndResets()
    ensures Step(MatchPoint(), NoKeys) == Initial()
  {
    MatchPointScores();
    var s := BeforeWinCheck(MatchPoint(), NoKeys);
    assert Step(MatchPoint(), NoKeys) == AfterWin(s);
  }
}
