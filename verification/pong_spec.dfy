/**
 The per-frame simulation of a one-paddle Pong game, stated on values.

 Every routine of the frame step (paddle move, ball move, wall chain, paddle
 collision) is a function from the old state to the new one; the imperative
 classes in module Pong are proved to follow these functions, and the
 properties of the game are proved about them in module PongProperties.
 */
module PongSpec {

  // Playfield and speeds (main.go:16-21).
  const ScreenWidth: int := 640
  const ScreenHeight: int := 480
  const BallSpeed: int := 3
  const PaddleSpeed: int := 6

  /** An axis-aligned rectangle: top-left corner and size, in pixels. */
  datatype Rect = Rect(x: int, y: int, w: int, h: int)

  /** A ball: its rectangle and its velocity in pixels per frame. */
  datatype BallState = BallState(body: Rect, vx: int, vy: int)

  /** The whole simulation state. */
  datatype GameState = GameState(paddle: Rect, ball: BallState, score: int, highScore: int)

  /** The two arrow keys sampled for one frame. */
  datatype Keys = Keys(up: bool, down: bool)

  /** Which rule of the wall chain fires; NoWall when none does. */
  datatype Wall = RightExit | LeftWall | TopWall | BottomWall | NoWall

  function Max(a: int, b: int): (m: int)
    ensures m >= a && m >= b && (m == a || m == b)
  {
    if a < b then b else a
  }

  /** The score counters are consistent: the rally length is never negative
      and never above the best rally seen so far. */
  predicate ScoreInv(g: GameState)
  {
    0 <= g.score <= g.highScore
  }

  /** What holds of every state the game reaches from its initial state:
      the score invariant, the paddle's fixed column and size, the ball's
      fixed size, and both velocity components of magnitude BallSpeed. */
  predicate Inv(g: GameState)
  {
    && ScoreInv(g)
    && g.paddle.x == 600 && g.paddle.w == 15 && g.paddle.h == 100
    && g.ball.body.w == 15 && g.ball.body.h == 15
    && (g.ball.vx == BallSpeed || g.ball.vx == -BallSpeed)
    && (g.ball.vy == BallSpeed || g.ball.vy == -BallSpeed)
  }

  /** The state the game starts in: paddle at (600,200) of size 15x100, ball
      at the origin of size 15x15 moving down and right, both scores zero. */
  function Initial(): (g: GameState)
    ensures Inv(g)
    ensures g.score == 0 && g.highScore == 0
  {
    GameState(Rect(600, 200, 15, 100), BallState(Rect(0, 0, 15, 15), BallSpeed, BallSpeed), 0, 0)
  }

  /** The paddle after one frame of input: two independent tests, so both
      keys held cancel out. Only the vertical position can change. */
  function PaddleAfterKeys(p: Rect, up: bool, down: bool): (r: Rect)
    ensures r.x == p.x && r.w == p.w && r.h == p.h
    ensures up && !down ==> r.y == p.y - PaddleSpeed
    ensures !up && down ==> r.y == p.y + PaddleSpeed
    ensures up == down ==> r == p
  {
    var raised := if up then p.(y := p.y - PaddleSpeed) else p;
    if down then raised.(y := raised.y + PaddleSpeed) else raised
  }

  /** The ball after advancing one frame along its velocity. */
  function BallAfterMove(b: BallState): (r: BallState)
    ensures r.body.x - b.body.x == b.vx && r.body.y - b.body.y == b.vy
    ensures r.body.w == b.body.w && r.body.h == b.body.h
    ensures r.vx == b.vx && r.vy == b.vy
  {
    b.(body := b.body.(x := b.body.x + b.vx, y := b.body.y + b.vy))
  }

  /** The wall chain as an ordered guard list: the first rule whose test holds
      wins, so each rule fires exactly when its own test holds and every
      earlier test fails. */
  function WallHit(x: int, y: int): (w: Wall)
    ensures w == RightExit <==> x > ScreenWidth
    ensures w == LeftWall <==> x <= 0
    ensures w == TopWall <==> 0 < x <= ScreenWidth && y <= 0
    ensures w == BottomWall <==> 0 < x <= ScreenWidth && y >= ScreenHeight
    ensures w == NoWall <==> 0 < x <= ScreenWidth && 0 < y < ScreenHeight
  {
    if x > ScreenWidth then RightExit
    else if x <= 0 then LeftWall
    else if y <= 0 then TopWall
    else if y >= ScreenHeight then BottomWall
    else NoWall
  }

  /** The rally ends: the ball goes back to the origin keeping its size and
      velocity, the score drops to zero, and the high score and the paddle
      are kept. */
  function AfterReset(g: GameState): (r: GameState)
    ensures r.ball.body.x == 0 && r.ball.body.y == 0 && r.score == 0
    ensures r.ball.body.w == g.ball.body.w && r.ball.body.h == g.ball.body.h
    ensures r.ball.vx == g.ball.vx && r.ball.vy == g.ball.vy
    ensures r.paddle == g.paddle && r.highScore == g.highScore
  {
    g.(ball := g.ball.(body := g.ball.body.(x := 0, y := 0)), score := 0)
  }

  /** The wall chain. Only the right-edge exit moves the ball (by resetting the
      rally); the other rules set one velocity component to a fixed value,
      whatever its sign was, and no rule touches the paddle. */
  function AfterWall(g: GameState): (r: GameState)
    ensures r.paddle == g.paddle
    ensures WallHit(g.ball.body.x, g.ball.body.y) == RightExit ==> r == AfterReset(g)
    ensures WallHit(g.ball.body.x, g.ball.body.y) != RightExit ==>
              r.ball.body == g.ball.body && r.score == g.score && r.highScore == g.highScore
    ensures WallHit(g.ball.body.x, g.ball.body.y) == LeftWall ==>
              r.ball.vx == BallSpeed && r.ball.vy == g.ball.vy
    ensures WallHit(g.ball.body.x, g.ball.body.y) == TopWall ==>
              r.ball.vx == g.ball.vx && r.ball.vy == BallSpeed
    ensures WallHit(g.ball.body.x, g.ball.body.y) == BottomWall ==>
              r.ball.vx == g.ball.vx && r.ball.vy == -BallSpeed
    ensures WallHit(g.ball.body.x, g.ball.body.y) == NoWall ==> r == g
  {
    match WallHit(g.ball.body.x, g.ball.body.y)
    case RightExit => AfterReset(g)
    case LeftWall => g.(ball := g.ball.(vx := BallSpeed))
    case TopWall => g.(ball := g.ball.(vy := BallSpeed))
    case BottomWall => g.(ball := g.ball.(vy := -BallSpeed))
    case NoWall => g
  }

  /** The paddle contact test: the ball's top-left corner is at or right of
      the paddle's left edge and within its vertical span, ends included. */
  predicate PaddleHit(g: GameState)
  {
    g.ball.body.x >= g.paddle.x && g.ball.body.y >= g.paddle.y && g.ball.body.y <= g.paddle.y + g.paddle.h
  }

  /** The paddle collision: on contact the horizontal direction reverses, the
      rally grows by one and the high score rises to meet it; otherwise the
      state is left as it was. */
  function AfterPaddle(g: GameState): (r: GameState)
    ensures r.paddle == g.paddle && r.ball.body == g.ball.body && r.ball.vy == g.ball.vy
    ensures PaddleHit(g) ==>
              r.ball.vx == -g.ball.vx && r.score == g.score + 1 &&
              r.highScore == Max(g.highScore, g.score + 1)
    ensures !PaddleHit(g) ==> r == g
  {
    if PaddleHit(g) then
      var hit := g.(ball := g.ball.(vx := -g.ball.vx), score := g.score + 1);
      if hit.score > hit.highScore then hit.(highScore := hit.score) else hit
    else
      g
  }

  /** One frame: paddle move, ball move, wall chain, then paddle collision,
      the last one whatever the wall chain did. A frame never moves the
      paddle sideways or resizes anything, never lowers the high score, only
      raises it to the score it has just reached, and keeps both the score
      invariant and the reachable-state invariant. */
  function Step(g: GameState, up: bool, down: bool): (r: GameState)
    ensures r.paddle.x == g.paddle.x && r.paddle.w == g.paddle.w && r.paddle.h == g.paddle.h
    ensures r.ball.body.w == g.ball.body.w && r.ball.body.h == g.ball.body.h
    ensures r.highScore >= g.highScore
    ensures r.highScore == g.highScore || r.highScore == r.score
    ensures ScoreInv(g) ==> ScoreInv(r)
    ensures Inv(g) ==> Inv(r)
  {
    var moved := g.(paddle := PaddleAfterKeys(g.paddle, up, down), ball := BallAfterMove(g.ball));
    AfterPaddle(AfterWall(moved))
  }

  /** A run of frames, one per element of the input sequence; the high score
      never drops and the reachable-state invariant is kept throughout. */
  function Run(g: GameState, frames: seq<Keys>): (r: GameState)
    ensures r.highScore >= g.highScore
    ensures Inv(g) ==> Inv(r)
    decreases |frames|
  {
    if frames == [] then g
    else Run(Step(g, frames[0].up, frames[0].down), frames[1..])
  }
}
