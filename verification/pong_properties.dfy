/**
 Properties of the frame step that relate several frames or several rules:
 composition of runs, monotone high score, the first-match order of the wall
 chain, and concrete scenarios.
 */
module PongProperties {
  import opened PongSpec

  /** Running two input sequences one after the other is running their
      concatenation. */
  lemma {:induction false} RunAppend(g: GameState, a: seq<Keys>, b: seq<Keys>)
    ensures Run(g, a + b) == Run(Run(g, a), b)
    decreases |a|
  {
    if a == [] {
      assert a + b == b;
    } else {
      assert (a + b)[1..] == a[1..] + b;
      RunAppend(Step(g, a[0].up, a[0].down), a[1..], b);
    }
  }

  /** The high score never decreases: at any later point of a run it is at
      least what it was at any earlier point. */
  lemma HighScoreMonotone(g: GameState, a: seq<Keys>, b: seq<Keys>)
    ensures Run(g, a + b).highScore >= Run(g, a).highScore
  {
    RunAppend(g, a, b);
  }

  /** A run extended by one frame is that frame applied to the run. */
  lemma RunSnoc(g: GameState, p: seq<Keys>, k: Keys)
    ensures Run(g, p + [k]) == Step(Run(g, p), k.up, k.down)
  {
    RunAppend(g, p, [k]);
  }

  /** The high score of a run from the initial state is a score that was
      actually reached: it equals the score after some prefix of the run. */
  lemma {:induction false} HighScoreAttained(a: seq<Keys>)
    ensures exists i :: 0 <= i <= |a| && Run(Initial(), a[..i]).score == Run(Initial(), a).highScore
    decreases |a|
  {
    if a == [] {
      assert Run(Initial(), a[..0]).score == Run(Initial(), a).highScore;
    } else {
      var p, k := a[..|a| - 1], a[|a| - 1];
      assert a == p + [k];
      RunSnoc(Initial(), p, k);
      var s := Run(Initial(), p);
      var t := Step(s, k.up, k.down);
      assert Run(Initial(), a) == t;
      if t.highScore == s.highScore {
        HighScoreAttained(p);
        var i :| 0 <= i <= |p| && Run(Initial(), p[..i]).score == s.highScore;
        assert a[..i] == p[..i];
        assert Run(Initial(), a[..i]).score == Run(Initial(), a).highScore;
      } else {
        assert a[..|a|] == a;
        assert Run(Initial(), a[..|a|]).score == Run(Initial(), a).highScore;
      }
    }
  }

  /** The final high score bounds every score seen during the run; with
      HighScoreAttained it is the largest score reached. */
  lemma HighScoreIsUpperBound(a: seq<Keys>, i: nat)
    requires i <= |a|
    ensures Run(Initial(), a[..i]).score <= Run(Initial(), a).highScore
  {
    assert a == a[..i] + a[i..];
    ReachableInv(a[..i]);
    HighScoreMonotone(Initial(), a[..i], a[i..]);
  }

  /** Every state reached from the initial state satisfies the invariant, in
      particular 0 <= score <= highScore. */
  lemma ReachableInv(frames: seq<Keys>)
    ensures Inv(Run(Initial(), frames))
    ensures 0 <= Run(Initial(), frames).score <= Run(Initial(), frames).highScore
  {
  }

  /** A ball past the right edge ends the rally and nothing else happens in
      the wall chain: the vertical velocity is kept even when the ball is
      also above the top or below the bottom. */
  lemma WallFirstMatch(g: GameState)
    requires g.ball.body.x > ScreenWidth
    ensures AfterWall(g) == AfterReset(g)
    ensures AfterWall(g).ball.vx == g.ball.vx && AfterWall(g).ball.vy == g.ball.vy
  {
  }

  /** Every wall rule but the reset only sets a velocity component to a fixed
      value, so applying the chain twice is the same as applying it once. */
  lemma WallRuleIdempotent(g: GameState)
    requires WallHit(g.ball.body.x, g.ball.body.y) != RightExit
    ensures AfterWall(AfterWall(g)) == AfterWall(g)
  {
  }

  /** The reset is not a fixed point of the chain: the ball it puts at the
      origin is on the left wall, so a second pass forces it rightwards. */
  lemma WallAfterReset(g: GameState)
    requires WallHit(g.ball.body.x, g.ball.body.y) == RightExit
    ensures WallHit(AfterWall(g).ball.body.x, AfterWall(g).ball.body.y) == LeftWall
    ensures AfterWall(AfterWall(g)) == AfterWall(g).(ball := AfterWall(g).ball.(vx := BallSpeed))
  {
  }

  /** A frame in which no wall rule and no paddle hit fires moves the ball
      exactly by its velocity and changes neither velocity nor scores. */
  lemma FreeFlight(g: GameState, up: bool, down: bool)
    requires WallHit(g.ball.body.x + g.ball.vx, g.ball.body.y + g.ball.vy) == NoWall
    requires !PaddleHit(g.(paddle := PaddleAfterKeys(g.paddle, up, down), ball := BallAfterMove(g.ball)))
    ensures Step(g, up, down).ball == BallAfterMove(g.ball)
    ensures Step(g, up, down).ball.body.x == g.ball.body.x + g.ball.vx
    ensures Step(g, up, down).ball.body.y == g.ball.body.y + g.ball.vy
    ensures Step(g, up, down).score == g.score && Step(g, up, down).highScore == g.highScore
  {
  }

  /** A frame whose move carries the ball past the right edge puts it at the
      origin with its velocity unchanged and the score at zero; the paddle
      check that follows cannot fire, since the paddle lies right of the
      origin. */
  lemma RightExitResets(g: GameState, up: bool, down: bool)
    requires g.ball.body.x + g.ball.vx > ScreenWidth
    requires g.paddle.x > 0
    ensures Step(g, up, down).ball.body.x == 0 && Step(g, up, down).ball.body.y == 0
    ensures Step(g, up, down).ball.vx == g.ball.vx && Step(g, up, down).ball.vy == g.ball.vy
    ensures Step(g, up, down).score == 0 && Step(g, up, down).highScore == g.highScore
  {
  }

  /** A frame whose move carries the ball to or above the top edge, inside
      the horizontal bounds and short of the paddle, forces the ball
      downwards; the move of that same frame and the horizontal velocity are
      kept. */
  lemma TopWallBounce(g: GameState, up: bool, down: bool)
    requires 0 < g.ball.body.x + g.ball.vx <= ScreenWidth
    requires g.ball.body.y + g.ball.vy <= 0
    requires g.ball.body.x + g.ball.vx < g.paddle.x
    ensures Step(g, up, down).ball.vy == BallSpeed && Step(g, up, down).ball.vx == g.ball.vx
    ensures Step(g, up, down).ball.body == BallAfterMove(g.ball).body
  {
  }

  /** The first frame of a game with no key pressed: the ball moves from the
      origin to (3,3) and nothing else changes. */
  lemma FirstFrame()
    ensures Step(Initial(), false, false) ==
            Initial().(ball := Initial().ball.(body := Rect(3, 3, 15, 15)))
  {
  }

  /** The paddle check has no debounce: a ball whose corner stays in the
      paddle's region for three frames scores three times and ends with its
      horizontal velocity reversed (three flips). */
  lemma PaddleRefires()
    ensures var g := GameState(Rect(600, 200, 15, 100), BallState(Rect(617, 247, 15, 15), BallSpeed, BallSpeed), 0, 0);
            var r := Run(g, [Keys(false, false), Keys(false, false), Keys(false, false)]);
            r.score == 3 && r.highScore == 3 && r.ball.vx == -BallSpeed && r.ball.body == Rect(620, 256, 15, 15)
  {
  }
}
