/**
 The game objects as the program keeps them: a paddle and a ball whose fields
 are updated in place, and the game that owns both together with the score
 counters. Each method is proved to take the state it reads to the state the
 matching function of module PongSpec gives.
 */
module Pong {
  import opened PongSpec

  datatype Option<T> = None | Some(value: T)

  /** The player's paddle (main.go:27-29). */
  class Paddle {
    var x: int
    var y: int
    var w: int
    var h: int

    function Shape(): (r: Rect)
      reads this
    {
      Rect(x, y, w, h)
    }

    constructor (x0: int, y0: int, w0: int, h0: int)
      ensures Shape() == Rect(x0, y0, w0, h0)
    {
      x, y, w, h := x0, y0, w0, h0;
    }

    /** The arrow-key move; `up` and `down` are the two key states of this
        frame. */
    method MoveOnKeyPress(up: bool, down: bool)
      modifies this
      ensures Shape() == PaddleAfterKeys(old(Shape()), up, down)
    {
      if up {
        y := y - PaddleSpeed;
      }
      if down {
        y := y + PaddleSpeed;
      }
    }
  }

  /** The ball (main.go:31-34). */
  class Ball {
    var x: int
    var y: int
    var w: int
    var h: int
    var vx: int
    var vy: int

    function State(): (s: BallState)
      reads this
    {
      BallState(Rect(x, y, w, h), vx, vy)
    }

    constructor (x0: int, y0: int, w0: int, h0: int, vx0: int, vy0: int)
      ensures State() == BallState(Rect(x0, y0, w0, h0), vx0, vy0)
    {
      x, y, w, h, vx, vy := x0, y0, w0, h0, vx0, vy0;
    }

    method Move()
      modifies this
      ensures State() == BallAfterMove(old(State()))
    {
      x := x + vx;
      y := y + vy;
    }
  }

  /** The game (main.go:36-41): one paddle and one ball, owned and never
      replaced, and the two score counters. */
  class Game {
    const paddle: Paddle
    const ball: Ball
    var score: int
    var highScore: int

    function State(): (s: GameState)
      reads this, paddle, ball
    {
      GameState(paddle.Shape(), ball.State(), score, highScore)
    }

    /** The reachable-state invariant `Inv` of module PongSpec, read off the
        object's fields; the constructor establishes it and `Update` keeps it. */
    ghost predicate Valid()
      reads this, paddle, ball
    {
      Inv(State())
    }

    /** The starting state that the program sets up before the first frame. */
    constructor ()
      ensures fresh(paddle) && fresh(ball)
      ensures State() == Initial() && Valid()
    {
      paddle := new Paddle(600, 200, 15, 100);
      ball := new Ball(0, 0, 15, 15, BallSpeed, BallSpeed);
      score := 0;
      highScore := 0;
    }

    method Reset()
      modifies this, ball
      ensures State() == AfterReset(old(State()))
    {
      ball.x := 0;
      ball.y := 0;
      score := 0;
    }

    method CollideWithWall()
      modifies this, ball
      ensures State() == AfterWall(old(State()))
    {
      if ball.x > ScreenWidth {
        Reset();
      } else if ball.x <= 0 {
        ball.vx := BallSpeed;
      } else if ball.y <= 0 {
        ball.vy := BallSpeed;
      } else if ball.y >= ScreenHeight {
        ball.vy := -BallSpeed;
      }
    }

    method CollideWithPaddle()
      modifies this, ball
      ensures State() == AfterPaddle(old(State()))
    {
      if ball.x >= paddle.x && ball.y >= paddle.y && ball.y <= paddle.y + paddle.h {
        ball.vx := -ball.vx;
        score := score + 1;
        if score > highScore {
          highScore := score;
        }
      }
    }

    /** One frame; `up` and `down` are the arrow keys sampled for it. The
        error result is always absent. */
    method Update(up: bool, down: bool) returns (err: Option<string>)
      modifies this, paddle, ball
      ensures State() == Step(old(State()), up, down)
      ensures old(Valid()) ==> Valid()
      ensures highScore >= old(highScore)
      ensures err == None
    {
      paddle.MoveOnKeyPress(up, down);
      ball.Move();
      CollideWithWall();
      CollideWithPaddle();
      return None;
    }
  }
}
