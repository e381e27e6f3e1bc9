/**
 The Game scene as the object it is: the fields that `create` sets and that
 `update` changes in place, statement by statement. Each call of `Update` is
 proved to compute exactly one `Frame.Step`, so everything proved about
 `Frame.Step` and `Frame.Run` holds of the scene.
 */
module Scene {
  import opened Frame

  class Game {
    /** The camera's size, fixed for the life of the scene. */
    const view: Viewport
    // The paddle rectangle's centre and fill colour.
    var paddleX: real
    var paddleY: real
    var fill: int
    // The ball's centre and its velocity in units per second.
    var ballX: real
    var ballY: real
    var vx: real
    var vy: real
    var score: int

    /** The scene's fields as a value. */
    function Snapshot(): State
      reads this
    {
      State(paddleX, paddleY, ballX, ballY, vx, vy, score, fill)
    }

    ghost predicate Valid()
      reads this
    {
      Invariant(Snapshot())
    }

    /** `create`: the paddle at the bottom centre, the ball near the top
        moving right and down, no score. */
    constructor (view: Viewport)
      ensures this.view == view
      ensures Snapshot() == Initial(view)
      ensures Valid()
    {
      this.view := view;
      paddleX, paddleY := 512.0, view.height - 50.0;
      fill := IdleFill;
      ballX, ballY := 512.0, 20.0;
      vx, vy := BallSpeedX, BallSpeedY;
      score := 0;
    }

    /** `update(time, delta)`: one frame, with the arrow keys as polled and
        `delta` milliseconds since the last frame. */
    method Update(cursors: Cursors, delta: real)
      requires Valid()
      modifies this
      ensures Valid()
      ensures Snapshot() == Step(view, old(Snapshot()), cursors, delta)
      ensures score == old(score) || score == old(score) + HitReward
      ensures view.width >= PaddleWidth && view.height >= PaddleHeight ==> PaddleOnScreen(view, Snapshot())
    {
      ghost var before := Snapshot();
      MoveRectangle(cursors);
      MoveBallAndBounce(delta);
      CheckCollision();
      StepInvariant(view, before, cursors, delta);
      StepScore(view, before, cursors, delta);
      if view.width >= PaddleWidth && view.height >= PaddleHeight {
        StepPaddleOnScreen(view, before, cursors, delta);
      }
    }

    /** The paddle part of `update`: move by the held keys, then keep the
        rectangle on screen. */
    method MoveRectangle(cursors: Cursors)
      modifies this
      ensures Snapshot() == MovePaddle(view, old(Snapshot()), cursors)
    {
      if cursors.left {
        paddleX := paddleX - PaddleStep;
      } else if cursors.right {
        paddleX := paddleX + PaddleStep;
      }
      if cursors.up {
        paddleY := paddleY - PaddleStep;
      } else if cursors.down {
        paddleY := paddleY + PaddleStep;
      }

      // Keep the paddle on screen.
      if paddleX < PaddleWidth / 2.0 {
        paddleX := PaddleWidth / 2.0;
      } else if paddleX > view.width - PaddleWidth / 2.0 {
        paddleX := view.width - PaddleWidth / 2.0;
      }
      if paddleY < PaddleHeight / 2.0 {
        paddleY := PaddleHeight / 2.0;
      } else if paddleY > view.height - PaddleHeight / 2.0 {
        paddleY := view.height - PaddleHeight / 2.0;
      }
    }

    /** The ball part of `update`: integrate the position over `delta`
        milliseconds, then bounce off the screen edges without moving the
        ball back. */
    method MoveBallAndBounce(delta: real)
      modifies this
      ensures Snapshot() == MoveBall(view, old(Snapshot()), delta)
    {
      ballX := ballX + vx * (delta / 1000.0);
      ballY := ballY + vy * (delta / 1000.0);

      if ballX < BallRadius || ballX > view.width - BallRadius {
        vx := vx * -1.0;
      }
      if ballY < BallRadius || ballY > view.height - BallRadius {
        vy := vy * -1.0;
      }
    }

    /** The collision part of `update`: recolour the paddle, and on overlap
        bounce the ball off it and score. */
    method CheckCollision()
      modifies this
      ensures Snapshot() == Collide(old(Snapshot()))
    {
      if Intersects(BallBox(ballX, ballY), PaddleBox(paddleX, paddleY)) {
        fill := HitFill;
        vy := vy * -1.0;
        score := score + HitReward;
      } else {
        fill := IdleFill;
      }
    }
  }

  /** The frame driver: a fresh scene, then one `Update` per input. The
      scene ends where `Run` from the created state ends, so its score is a
      multiple of 10, at most 10 per frame, and its speeds are unchanged. */
  method Play(view: Viewport, frames: seq<Input>) returns (game: Game)
    ensures fresh(game) && game.view == view && game.Valid()
    ensures game.Snapshot() == Run(view, Initial(view), frames)
    ensures 0 <= game.score <= HitReward * |frames| && game.score % HitReward == 0
    ensures Abs(game.vx) == BallSpeedX && Abs(game.vy) == BallSpeedY
  {
    game := new Game(view);
    var i := 0;
    while i < |frames|
      invariant 0 <= i <= |frames|
      invariant game.view == view && game.Valid()
      invariant Run(view, game.Snapshot(), frames[i..]) == Run(view, Initial(view), frames)
    {
      game.Update(frames[i].keys, frames[i].delta);
      assert frames[i..][1..] == frames[i + 1..];
      i := i + 1;
    }
    Session(view, frames);
  }
}
