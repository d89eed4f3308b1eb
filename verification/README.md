# Pong frame step in Dafny

A model of the per-frame simulation of a one-paddle Pong game (`main.go`).
Each frame the game moves the paddle vertically according to the two arrow
keys, advances the ball along its velocity, runs the wall chain (right-edge
exit resets the rally; left, top and bottom walls force a velocity component,
first match wins) and then the paddle collision (reverse horizontal
direction, score one point, raise the high score).

The project has three modules:

- `PongSpec` (`pong_spec.dfy`): the constants, the state as values
  (`Rect`, `BallState`, `GameState`), every routine of the frame as a
  function from old to new state, the frame itself (`Step`) and a run of
  frames (`Run`), with the invariants `ScoreInv` (`0 <= score <= highScore`)
  and `Inv` (what every reachable state satisfies).
- `Pong` (`pong_game.dfy`): the imperative form the program has: classes
  `Paddle`, `Ball` and `Game` whose methods update their fields in place,
  each proved to reach the state the matching `PongSpec` function gives.
- `PongProperties` (`pong_properties.dfy`): lemmas relating several frames
  or rules: run composition, monotone high score, first-match order of the
  wall chain, and concrete scenarios.

The program's two key queries (main.go:138, 142) become the boolean
parameters `up` and `down`. Integers are unbounded.

The reset leaves the velocity unchanged, and the wall rules set fixed values
rather than flipping signs (main.go:152-169).

## Model

| member | source | states |
|---|---|---|
| PongSpec.Initial | main.go:51-74 | the starting state satisfies the reachable-state invariant, with score and high score zero |
| PongSpec.PaddleAfterKeys | main.go:137-145 | up alone raises the paddle by 6, down alone lowers it by 6, both or neither leave it unchanged; x, w, h never change |
| PongSpec.BallAfterMove | main.go:147-150 | the position advances by exactly the velocity; size and velocity are kept |
| PongSpec.WallHit | main.go:159-170 | each wall rule fires exactly when its own test holds and every earlier test fails (right exit, then left, top, bottom) |
| PongSpec.AfterReset | main.go:152-157 | ball at (0,0), score 0; ball size, velocity, high score and paddle kept |
| PongSpec.AfterWall | main.go:159-170 | right exit is the reset; left sets vx = 3, top sets vy = 3, bottom sets vy = -3, each keeping the other component; only the reset moves the ball or touches the scores; no wall leaves the state unchanged |
| PongSpec.AfterPaddle | main.go:172-181 | on a hit (the contact test `PaddleHit`: ball corner at or right of the paddle's left edge and within its vertical span, ends included) vx is negated, score rises by 1 and high score becomes max(highScore, score + 1); otherwise nothing changes; position, vy and paddle are never changed |
| PongSpec.Step | main.go:129-135 | a frame keeps the paddle's column and both sizes, never lowers the high score, changes it only to the score just reached, and preserves `0 <= score <= highScore` and the reachable-state invariant |
| PongSpec.Run | main.go:129-135 | over any sequence of frames the high score never drops and the reachable-state invariant is kept |
| PongProperties.RunAppend | main.go:129-135 | running two input sequences in turn equals running their concatenation |
| PongProperties.HighScoreMonotone | main.go:172-181 | the high score at a later frame is at least the high score at any earlier frame |
| PongProperties.RunSnoc | main.go:129-135 | a run extended by one frame equals that frame applied to the run |
| PongProperties.HighScoreAttained | main.go:172-181 | the high score after any run from the initial state equals the score after some prefix of that run |
| PongProperties.HighScoreIsUpperBound | main.go:172-181 | the score after every prefix of a run from the initial state is at most the run's final high score |
| PongProperties.ReachableInv | main.go:71-74 | every state reached from the initial one has `0 <= score <= highScore`, velocities of magnitude 3 and the initial paddle column and sizes |
| PongProperties.WallFirstMatch | main.go:161-162 | past the right edge only the reset happens; vx and vy are kept even when the ball is also beyond the top or bottom |
| PongProperties.WallRuleIdempotent | main.go:163-169 | every rule but the reset forces a fixed value, so applying the chain twice equals applying it once |
| PongProperties.WallAfterReset | main.go:152-164 | the reset puts the ball on the left wall, so a second pass of the chain forces vx = 3 |
| PongProperties.FreeFlight | main.go:129-135 | a frame where no wall rule fires and the paddle test fails leaves the ball exactly as the move made it (position advanced by the velocity, velocity kept) and keeps the scores |
| PongProperties.RightExitResets | main.go:129-135 | a frame whose move passes the right edge ends with the ball at (0,0), velocity unchanged, score 0, high score kept; the paddle check cannot fire after it |
| PongProperties.TopWallBounce | main.go:165-166 | a frame reaching the top edge (within the sides, short of the paddle) sets vy = 3, keeps vx and keeps the move of that frame |
| PongProperties.FirstFrame | main.go:51-74 | from the initial state with no key, the ball moves to (3,3) and nothing else changes |
| PongProperties.PaddleRefires | main.go:172-181 | the paddle check has no debounce: three frames in the region score three points and leave vx reversed |
| Pong.Paddle.constructor | main.go:51-58 | the paddle gets the given rectangle |
| Pong.Paddle.MoveOnKeyPress | main.go:137-145 | the in-place move reaches `PaddleAfterKeys` of the old paddle |
| Pong.Ball.constructor | main.go:60-69 | the ball gets the given rectangle and velocity |
| Pong.Ball.Move | main.go:147-150 | the in-place move reaches `BallAfterMove` of the old ball |
| Pong.Game.constructor | main.go:51-74 | the new game is in the initial state and satisfies the invariant |
| Pong.Game.Reset | main.go:152-157 | the new state is `AfterReset` of the old one |
| Pong.Game.CollideWithWall | main.go:159-170 | the new state is `AfterWall` of the old one |
| Pong.Game.CollideWithPaddle | main.go:172-181 | the new state is `AfterPaddle` of the old one |
| Pong.Game.Update | main.go:129-135 | the new state is `Step` of the old one, the invariant is kept, the high score does not drop, and no error is returned |

## Left out

- `Draw` (main.go:81-123): rendering with floating-point coordinates, font loading and text layout are calls into the graphics library.
- `Layout` (main.go:125-127): a constant answer to the host window.
- `main` (main.go:47-79): window set-up and the host's frame loop; only the initial state it builds is modelled (`Game` constructor, `Initial`), and the loop's repeated `Update` calls are modelled as `Run`.
- Keyboard polling: the two key queries are the parameters `up` and `down`.
- Integer width: `score` and positions are unbounded integers; overflow of the program's machine integers is not modelled.
- The error result of `Update` is modelled as an `Option` that is always `None`.
