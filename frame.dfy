/**
 The per-frame step of the Game scene as functions on values: the paddle
 move, the paddle clamp, the ball integration with its wall bounce, and the
 paddle-ball collision that recolours the paddle and scores. `Step` is one
 call of `update`; `Run` is the external frame loop that calls it again and
 again. The class in module Scene is proved to compute exactly `Step`.
 */
module Frame {

  // Sizes and constants fixed when the scene is created.
  const PaddleWidth: real := 200.0
  const PaddleHeight: real := 100.0
  const PaddleStep: real := 5.0
  const BallRadius: real := 20.0
  const BallSpeedX: real := 200.0
  const BallSpeedY: real := 150.0
  const HitReward: int := 10
  const HitFill: int := 0x0000ff
  const IdleFill: int := 0xffa500

  /** The four arrow keys, as polled for one frame. */
  datatype Cursors = Cursors(left: bool, right: bool, up: bool, down: bool)

  /** The camera's size; the screen is [0, width] x [0, height]. */
  datatype Viewport = Viewport(width: real, height: real)

  /** An axis-aligned box given by its top-left corner and its size. */
  datatype Box = Box(x: real, y: real, width: real, height: real)
  {
    function Right(): real { x + width }
    function Bottom(): real { y + height }
  }

  /** One frame's input: the keys held and the milliseconds since the last frame. */
  datatype Input = Input(keys: Cursors, delta: real)

  /** Everything `update` reads or writes, apart from the viewport. */
  datatype State = State(
    paddleX: real, paddleY: real,
    ballX: real, ballY: real,
    vx: real, vy: real,
    score: int,
    fill: int)

  function Abs(x: real): real { if x < 0.0 then -x else x }

  /** The scene as `create` leaves it. */
  function Initial(view: Viewport): (s: State)
    ensures Invariant(s)
    ensures s.score == 0 && s.fill == IdleFill
    ensures PaddleOnScreen(view, s) <==> view.width >= 612.0 && view.height >= PaddleHeight
  {
    State(512.0, view.height - 50.0, 512.0, 20.0, BallSpeedX, BallSpeedY, 0, IdleFill)
  }

  /** What every frame keeps: the score is a non-negative multiple of the
      reward, both speeds are those given at creation, and the paddle has
      one of its two colours. */
  predicate Invariant(s: State)
  {
    && s.score >= 0
    && s.score % HitReward == 0
    && Abs(s.vx) == BallSpeedX
    && Abs(s.vy) == BallSpeedY
    && (s.fill == HitFill || s.fill == IdleFill)
  }

  /** The paddle rectangle lies inside the screen. */
  predicate PaddleOnScreen(view: Viewport, s: State)
  {
    && 0.0 <= s.paddleX - PaddleWidth / 2.0
    && s.paddleX + PaddleWidth / 2.0 <= view.width
    && 0.0 <= s.paddleY - PaddleHeight / 2.0
    && s.paddleY + PaddleHeight / 2.0 <= view.height
  }

  /** One paddle axis of the move: a held key moves the paddle by a fixed
      step, whatever the frame time, and the decreasing key wins when both
      are held. */
  function Nudge(p: real, decrease: bool, increase: bool): (r: real)
    ensures r - p == -PaddleStep || r - p == 0.0 || r - p == PaddleStep
    ensures decrease ==> r == p - PaddleStep
    ensures r > p <==> !decrease && increase
    ensures r == p <==> !decrease && !increase
  {
    if decrease then p - PaddleStep
    else if increase then p + PaddleStep
    else p
  }

  /** One paddle axis of the clamp, with lo = size/2 and hi = extent - size/2.
      The test against lo comes first, so when the screen is narrower than the
      paddle (lo > hi) a position below lo still goes to lo. */
  function Clamp(p: real, lo: real, hi: real): (r: real)
    ensures lo <= hi ==> lo <= r <= hi
    ensures lo <= p <= hi ==> r == p
    ensures r == p || r == lo || r == hi
    ensures lo <= hi ==> (r == p <==> lo <= p <= hi)
    ensures p < lo ==> r == lo
    ensures lo <= p && p > hi ==> r == hi
  {
    if p < lo then lo
    else if p > hi then hi
    else p
  }

  /** The ball centre is within the margin of both edges of one axis. */
  predicate WithinEdges(p: real, margin: real, extent: real)
  {
    margin <= p <= extent - margin
  }

  /** The wall bounce of one velocity component. The position is only read. */
  function Reflect(p: real, v: real, margin: real, extent: real): (r: real)
    ensures Abs(r) == Abs(v)
    ensures WithinEdges(p, margin, extent) ==> r == v
    ensures !WithinEdges(p, margin, extent) ==> r == -v
  {
    if p < margin || p > extent - margin then -v else v
  }

  /** The bounds of the ball: the circle's enclosing square. */
  function BallBox(x: real, y: real): Box
  {
    Box(x - BallRadius, y - BallRadius, 2.0 * BallRadius, 2.0 * BallRadius)
  }

  /** The bounds of the paddle, whose position is its centre. */
  function PaddleBox(x: real, y: real): Box
  {
    Box(x - PaddleWidth / 2.0, y - PaddleHeight / 2.0, PaddleWidth, PaddleHeight)
  }

  /** The overlap test of two boxes: closed boxes of positive size that are
      not separated along either axis. */
  predicate Intersects(a: Box, b: Box)
  {
    && a.width > 0.0 && a.height > 0.0 && b.width > 0.0 && b.height > 0.0
    && !(a.Right() < b.x || a.Bottom() < b.y || a.x > b.Right() || a.y > b.Bottom())
  }

  /** The ball and the paddle, at the positions held in `s`, overlap. */
  predicate Overlaps(s: State)
  {
    Intersects(BallBox(s.ballX, s.ballY), PaddleBox(s.paddleX, s.paddleY))
  }

  /** Steps 1 and 2 of a frame: move the paddle by the held keys, then clamp
      its centre so that the rectangle stays on screen. */
  function MovePaddle(view: Viewport, s: State, keys: Cursors): State
  {
    s.(paddleX := Clamp(Nudge(s.paddleX, keys.left, keys.right), PaddleWidth / 2.0, view.width - PaddleWidth / 2.0),
       paddleY := Clamp(Nudge(s.paddleY, keys.up, keys.down), PaddleHeight / 2.0, view.height - PaddleHeight / 2.0))
  }

  /** Step 3 of a frame: move the ball by its velocity over `delta`
      milliseconds, then flip each velocity component whose coordinate is
      past an edge. */
  function MoveBall(view: Viewport, s: State, delta: real): State
  {
    var x := s.ballX + s.vx * (delta / 1000.0);
    var y := s.ballY + s.vy * (delta / 1000.0);
    s.(ballX := x, ballY := y,
       vx := Reflect(x, s.vx, BallRadius, view.width),
       vy := Reflect(y, s.vy, BallRadius, view.height))
  }

  /** Step 4 of a frame: on overlap, paint the paddle blue, flip the ball's
      vertical velocity and score; otherwise paint the paddle orange. */
  function Collide(s: State): State
  {
    if Overlaps(s) then s.(fill := HitFill, vy := -s.vy, score := s.score + HitReward)
    else s.(fill := IdleFill)
  }

  /** One call of `update(time, delta)`. The collision is tested at the
      clamped paddle and the moved ball, which are the positions the frame
      leaves behind. */
  function Step(view: Viewport, s: State, keys: Cursors, delta: real): State
  {
    Collide(MoveBall(view, MovePaddle(view, s, keys), delta))
  }

  /** The external frame loop: `update` once per input, in order. */
  function Run(view: Viewport, s: State, frames: seq<Input>): State
    decreases |frames|
  {
    if frames == [] then s
    else Run(view, Step(view, s, frames[0].keys, frames[0].delta), frames[1..])
  }

  /** The number of frames of `frames`, run from `s`, that end with the ball
      and the paddle overlapping. */
  function Hits(view: Viewport, s: State, frames: seq<Input>): (n: nat)
    ensures n <= |frames|
    decreases |frames|
  {
    if frames == [] then 0
    else
      var next := Step(view, s, frames[0].keys, frames[0].delta);
      (if Overlaps(next) then 1 else 0) + Hits(view, next, frames[1..])
  }

  // ---------------------------------------------------------------------
  // One frame

  /** The paddle move ignores `delta`; left wins over right and up over down;
      the clamp then keeps a position that is already on screen. */
  lemma StepPaddle(view: Viewport, s: State, keys: Cursors, delta: real)
    ensures Step(view, s, keys, delta).paddleX
         == Clamp(Nudge(s.paddleX, keys.left, keys.right), PaddleWidth / 2.0, view.width - PaddleWidth / 2.0)
    ensures Step(view, s, keys, delta).paddleY
         == Clamp(Nudge(s.paddleY, keys.up, keys.down), PaddleHeight / 2.0, view.height - PaddleHeight / 2.0)
    ensures forall d: real :: Step(view, s, keys, d).paddleX == Step(view, s, keys, delta).paddleX
    ensures forall d: real :: Step(view, s, keys, d).paddleY == Step(view, s, keys, delta).paddleY
  {
  }

  /** When the moved position needs no clamping, the paddle moves by exactly
      -5, 0 or +5 on each axis, -5 whenever the decreasing key is held. */
  lemma StepPaddleDelta(view: Viewport, s: State, keys: Cursors, delta: real)
    requires PaddleWidth / 2.0 <= Nudge(s.paddleX, keys.left, keys.right) <= view.width - PaddleWidth / 2.0
    requires PaddleHeight / 2.0 <= Nudge(s.paddleY, keys.up, keys.down) <= view.height - PaddleHeight / 2.0
    ensures var r := Step(view, s, keys, delta);
      && (keys.left ==> r.paddleX == s.paddleX - PaddleStep)
      && (!keys.left && keys.right ==> r.paddleX == s.paddleX + PaddleStep)
      && (!keys.left && !keys.right ==> r.paddleX == s.paddleX)
      && (keys.up ==> r.paddleY == s.paddleY - PaddleStep)
      && (!keys.up && keys.down ==> r.paddleY == s.paddleY + PaddleStep)
      && (!keys.up && !keys.down ==> r.paddleY == s.paddleY)
  {
  }

  /** After any frame the paddle is on screen, provided the screen is at
      least as large as the paddle. */
  lemma StepPaddleOnScreen(view: Viewport, s: State, keys: Cursors, delta: real)
    requires view.width >= PaddleWidth && view.height >= PaddleHeight
    ensures PaddleOnScreen(view, Step(view, s, keys, delta))
  {
  }

  /** Clamping an already clamped position changes nothing. */
  lemma ClampIdempotent(p: real, lo: real, hi: real)
    requires lo <= hi
    ensures Clamp(Clamp(p, lo, hi), lo, hi) == Clamp(p, lo, hi)
  {
  }

  /** The ball moves by velocity times the frame time in seconds; the
      bounce then flips a component exactly when the moved ball is past an
      edge, and never moves the ball. */
  lemma StepBall(view: Viewport, s: State, keys: Cursors, delta: real)
    ensures var r := Step(view, s, keys, delta);
      && r.ballX == s.ballX + s.vx * delta / 1000.0
      && r.ballY == s.ballY + s.vy * delta / 1000.0
      && (r.ballX < BallRadius || r.ballX > view.width - BallRadius ==> r.vx == -s.vx)
      && (WithinEdges(r.ballX, BallRadius, view.width) ==> r.vx == s.vx)
  {
    var b := MoveBall(view, MovePaddle(view, s, keys), delta);
    var r := Collide(b);
    assert r.ballX == b.ballX && r.ballY == b.ballY && r.vx == b.vx;
  }

  /** Without a hit, the vertical component is flipped exactly when the
      moved ball is past the top or the bottom edge. */
  lemma StepWallBounceVertical(view: Viewport, s: State, keys: Cursors, delta: real)
    ensures var r := Step(view, s, keys, delta);
      && (!Overlaps(r) && !WithinEdges(r.ballY, BallRadius, view.height) ==> r.vy == -s.vy)
      && (!Overlaps(r) && WithinEdges(r.ballY, BallRadius, view.height) ==> r.vy == s.vy)
  {
    StepCollision(view, s, keys, delta);
  }

  /** The collision rule: a frame that ends in overlap scores exactly the
      reward, paints the paddle blue and flips the (already wall-bounced)
      vertical velocity once more; any other frame keeps the score and
      paints it orange. */
  lemma StepCollision(view: Viewport, s: State, keys: Cursors, delta: real)
    ensures var r := Step(view, s, keys, delta);
      var wall := Reflect(r.ballY, s.vy, BallRadius, view.height);
      && (Overlaps(r) ==> r.score == s.score + HitReward && r.fill == HitFill && r.vy == -wall)
      && (!Overlaps(r) ==> r.score == s.score && r.fill == IdleFill && r.vy == wall)
      && (r.score > s.score <==> Overlaps(r))
  {
  }

  /** Velocities are only ever negated, so both speeds survive a frame. */
  lemma StepSpeeds(view: Viewport, s: State, keys: Cursors, delta: real)
    ensures Abs(Step(view, s, keys, delta).vx) == Abs(s.vx)
    ensures Abs(Step(view, s, keys, delta).vy) == Abs(s.vy)
  {
    var m := MovePaddle(view, s, keys);
    MoveBallSpeeds(view, m, delta);
    CollideSpeeds(MoveBall(view, m, delta));
  }

  /** The wall bounce only negates, so it keeps both speeds. */
  lemma MoveBallSpeeds(view: Viewport, m: State, delta: real)
    ensures Abs(MoveBall(view, m, delta).vx) == Abs(m.vx)
    ensures Abs(MoveBall(view, m, delta).vy) == Abs(m.vy)
  {
  }

  /** The collision keeps `vx` and at most negates `vy`. */
  lemma CollideSpeeds(b: State)
    ensures Collide(b).vx == b.vx && Abs(Collide(b).vy) == Abs(b.vy)
  {
  }

  /** A frame keeps the invariant. */
  lemma StepInvariant(view: Viewport, s: State, keys: Cursors, delta: real)
    requires Invariant(s)
    ensures Invariant(Step(view, s, keys, delta))
  {
    StepSpeeds(view, s, keys, delta);
    StepScore(view, s, keys, delta);
    var r := Step(view, s, keys, delta);
    RewardKeepsMultiple(s.score, r.score);
  }

  /** A frame adds nothing or exactly one reward to the score, and leaves
      the paddle one of its two colours. */
  lemma StepScore(view: Viewport, s: State, keys: Cursors, delta: real)
    ensures var r := Step(view, s, keys, delta);
      && (r.score == s.score || r.score == s.score + HitReward)
      && (r.fill == HitFill || r.fill == IdleFill)
  {
  }

  lemma RewardKeepsMultiple(n: int, m: int)
    requires n % HitReward == 0 && (m == n || m == n + HitReward)
    ensures m >= n && m % HitReward == 0
  {
  }

  // ---------------------------------------------------------------------
  // Many frames

  /** Every sequence of frames keeps the invariant. */
  lemma {:induction false} RunInvariant(view: Viewport, s: State, frames: seq<Input>)
    requires Invariant(s)
    ensures Invariant(Run(view, s, frames))
    decreases |frames|
  {
    if frames != [] {
      StepInvariant(view, s, frames[0].keys, frames[0].delta);
      RunInvariant(view, Step(view, s, frames[0].keys, frames[0].delta), frames[1..]);
    }
  }

  /** The score goes up by exactly the reward for every frame that ends in
      overlap, so it never decreases and rises by a multiple of the reward,
      at most one reward per frame. */
  lemma {:induction false} RunScore(view: Viewport, s: State, frames: seq<Input>)
    ensures Run(view, s, frames).score == s.score + HitReward * Hits(view, s, frames)
    ensures s.score <= Run(view, s, frames).score <= s.score + HitReward * |frames|
    ensures (Run(view, s, frames).score - s.score) % HitReward == 0
    decreases |frames|
  {
    RunScoreCount(view, s, frames);
    RewardsFor(Hits(view, s, frames), |frames|);
  }

  lemma {:induction false} RunScoreCount(view: Viewport, s: State, frames: seq<Input>)
    ensures Run(view, s, frames).score == s.score + HitReward * Hits(view, s, frames)
    decreases |frames|
  {
    if frames != [] {
      var next := Step(view, s, frames[0].keys, frames[0].delta);
      var tail := frames[1..];
      StepCollision(view, s, frames[0].keys, frames[0].delta);
      RunScoreCount(view, next, tail);
      var hit: int := if Overlaps(next) then 1 else 0;
      assert next.score == s.score + HitReward * hit;
      assert Hits(view, s, frames) == hit + Hits(view, next, tail);
      assert HitReward * (hit + Hits(view, next, tail)) == HitReward * hit + HitReward * Hits(view, next, tail);
    }
  }

  /** k rewards out of at most n frames are a multiple of the reward between
      zero and n rewards. */
  lemma RewardsFor(k: nat, n: nat)
    requires k <= n
    ensures 0 <= HitReward * k <= HitReward * n
    ensures (HitReward * k) % HitReward == 0
  {
  }

  /** Both speeds are those the run started with, after any number of frames. */
  lemma {:induction false} RunSpeeds(view: Viewport, s: State, frames: seq<Input>)
    ensures Abs(Run(view, s, frames).vx) == Abs(s.vx)
    ensures Abs(Run(view, s, frames).vy) == Abs(s.vy)
    decreases |frames|
  {
    if frames != [] {
      StepSpeeds(view, s, frames[0].keys, frames[0].delta);
      RunSpeeds(view, Step(view, s, frames[0].keys, frames[0].delta), frames[1..]);
    }
  }

  /** After at least one frame the paddle is on screen, when the screen is
      at least as large as the paddle. */
  lemma {:induction false} RunPaddleOnScreen(view: Viewport, s: State, frames: seq<Input>)
    requires view.width >= PaddleWidth && view.height >= PaddleHeight
    requires frames != [] || PaddleOnScreen(view, s)
    ensures PaddleOnScreen(view, Run(view, s, frames))
    decreases |frames|
  {
    if frames != [] {
      var next := Step(view, s, frames[0].keys, frames[0].delta);
      StepPaddleOnScreen(view, s, frames[0].keys, frames[0].delta);
      RunPaddleOnScreen(view, next, frames[1..]);
    }
  }

  /** A whole session from `create`: the score is a non-negative multiple of
      10 no larger than 10 per frame, and the speeds stay 200 and 150. */
  lemma Session(view: Viewport, frames: seq<Input>)
    ensures var r := Run(view, Initial(view), frames);
      && 0 <= r.score <= HitReward * |frames|
      && r.score % HitReward == 0
      && Abs(r.vx) == 200.0 && Abs(r.vy) == 150.0
  {
    RunInvariant(view, Initial(view), frames);
    RunScore(view, Initial(view), frames);
  }

  // ---------------------------------------------------------------------
  // Worked examples

  /** On a 1024-wide screen the paddle centre stays in [100, 924]. */
  lemma ExampleClampRange(view: Viewport, s: State, keys: Cursors, delta: real)
    requires view.width == 1024.0
    ensures 100.0 <= Step(view, s, keys, delta).paddleX <= 924.0
  {
  }

  /** A ball at x = 5 moving left at 200 on a 1024-wide screen bounces to +200
      on the next frame, for any non-negative frame time. */
  lemma ExampleLeftWallBounce(view: Viewport, s: State, keys: Cursors, delta: real)
    requires view.width == 1024.0 && s.ballX == 5.0 && s.vx == -200.0 && delta >= 0.0
    ensures Step(view, s, keys, delta).vx == 200.0
  {
  }
}
