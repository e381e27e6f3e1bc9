# Game scene frame step, in Dafny

This project models the one piece of logic in the `Game` scene of a small
Phaser arcade game: the per-frame `update`, with the state that `create`
sets up. Each frame does four things, in order:

1. it moves the paddle rectangle 5 units per held arrow key, with left
   winning over right and up over down, and independent of the frame time;
2. it clamps the paddle centre so that the 200 x 100 rectangle stays on
   screen;
3. it moves the ball by `velocity * delta / 1000` and negates each velocity
   component whose coordinate is past an edge (the radius, 20, is the
   margin), without moving the ball back;
4. when the ball's and the paddle's bounds overlap, it paints the paddle blue
   (`0x0000ff`), negates the ball's vertical velocity and adds 10 to the
   score; otherwise it paints the paddle orange (`0xffa500`).

`frame.dfy` (module `Frame`) states the frame as functions on values:
`MovePaddle`, `MoveBall` and `Collide` are the stages, `Step` is one call of
`update`, and `Run` is the external loop that calls it once per frame. The
lemmas there prove the per-frame deltas, the bounds after the clamp, the
bounce rule, the collision rule, and the cross-frame facts: the score rises
by exactly 10 per overlapping frame, so it never decreases and stays a
non-negative multiple of 10, and both ball speeds (200 and 150) never change.

`scene.dfy` (module `Scene`) is the scene as an object: class `Game` holds
the fields that `update` changes in place and its `Update` method performs
the same assignments as the source, in the same order, proved equal to
`Frame.Step` and to keep the scene invariant. `Play` drives a fresh scene
through a sequence of frames.

Positions and velocities are Dafny `real`s. They are exact, unlike the
JavaScript numbers of the source. The viewport size is a constructor
parameter. The source reads it from the camera.

The overlap test is the one Phaser's `Intersects.RectangleToRectangle` is
taken to perform. It treats boxes as closed and reports no overlap when
either box has zero size. The ball's bounds are its enclosing 40 x 40 square
and the paddle's bounds are its rectangle, both centred on their positions.
That library code is not part of this model. No property proved here depends
on the edge convention.

## Model

| member | source | states |
|---|---|---|
| Frame.Initial | src/scenes/Game.ts:27-34 | the created scene satisfies the invariant, has score 0 and the orange fill, and has its paddle on screen exactly when the screen is at least 612 wide and 100 high |
| Frame.Nudge | src/scenes/Game.ts:46-62 | one axis of the move changes the position by exactly -5, 0 or +5; the decreasing key always gives -5; the position increases iff only the increasing key is held and stays put iff neither is |
| Frame.Clamp | src/scenes/Game.ts:65-81 | the clamped value lies in [lo, hi] when lo <= hi; a value already there is unchanged, and it is unchanged only then; a value below lo goes to lo and a value at least lo and above hi goes to hi, following the source's test order when lo > hi |
| Frame.Reflect | src/scenes/Game.ts:88-96 | the bounce keeps the speed; it keeps the component when the ball is within the margins of both edges and negates it otherwise |
| Frame.Hits | src/scenes/Game.ts:99-105 | a run of n frames has at most n overlapping frames |
| Frame.StepPaddle | src/scenes/Game.ts:46-81 | the new paddle centre is the clamp of the moved centre on each axis, and it is the same for every frame time |
| Frame.StepPaddleDelta | src/scenes/Game.ts:46-62 | when no clamping is needed the paddle moves by exactly -5, +5 or 0 per axis; left (up) held gives -5 even with right (down) held |
| Frame.StepPaddleOnScreen | src/scenes/Game.ts:65-81 | after any frame the paddle rectangle lies inside the screen, provided the screen is at least 200 x 100 |
| Frame.ClampIdempotent | src/scenes/Game.ts:65-81 | clamping twice gives the same as clamping once |
| Frame.StepBall | src/scenes/Game.ts:84-91 | the ball moves by velocity times `delta`/1000 on both axes; `vx` is negated when the moved ball is left of the radius or right of width minus radius, and kept when it is within both |
| Frame.StepWallBounceVertical | src/scenes/Game.ts:93-96 | on a frame without a hit, `vy` is negated when the moved ball is above the radius or below height minus radius, and kept otherwise |
| Frame.StepCollision | src/scenes/Game.ts:99-111 | a frame ending in overlap adds exactly 10 to the score, sets the blue fill and negates the wall-bounced `vy` once more; any other frame keeps the score and sets the orange fill; the score rises iff the frame ends in overlap |
| Frame.StepSpeeds | src/scenes/Game.ts:88-103 | a frame never changes the magnitude of either velocity component |
| Frame.StepScore | src/scenes/Game.ts:99-111 | a frame adds either nothing or exactly 10 to the score and leaves one of the two fills |
| Frame.StepInvariant | src/scenes/Game.ts:44-112 | a frame keeps the invariant: score a non-negative multiple of 10, speeds 200 and 150, fill blue or orange |
| Frame.RunInvariant | src/scenes/Game.ts:44-112 | any sequence of frames keeps the invariant |
| Frame.RunScoreCount | src/scenes/Game.ts:99-105 | after a run the score is the starting score plus 10 per overlapping frame, so sustained overlap scores on every frame |
| Frame.RunScore | src/scenes/Game.ts:99-105 | over n frames the score never decreases, rises by at most 10n, and rises by a multiple of 10 |
| Frame.RunSpeeds | src/scenes/Game.ts:88-103 | the speed on each axis after any run is the speed it started with |
| Frame.RunPaddleOnScreen | src/scenes/Game.ts:65-81 | after at least one frame, on a screen at least 200 x 100, the paddle is on screen |
| Frame.Session | src/scenes/Game.ts:27-112 | from the created scene, after n frames the score is a multiple of 10 in [0, 10n] and the speeds are 200 and 150 |
| Frame.ExampleClampRange | src/scenes/Game.ts:65-72 | on a 1024-wide screen the paddle centre stays in [100, 924] after a frame |
| Frame.ExampleLeftWallBounce | src/scenes/Game.ts:84-91 | a ball at x = 5 moving at -200 on a 1024-wide screen has `vx` = +200 after a frame of any non-negative length |
| Scene.Game.constructor | src/scenes/Game.ts:19-34 | the fields that `create` sets equal the initial state, and the invariant holds |
| Scene.Game.Update | src/scenes/Game.ts:44-112 | one call leaves exactly the state `Frame.Step` gives, keeps the invariant, adds 0 or 10 to the score and leaves the paddle on screen when the screen is large enough |
| Scene.Game.MoveRectangle | src/scenes/Game.ts:46-81 | the paddle part of the frame changes the fields as `Frame.MovePaddle` says and nothing else |
| Scene.Game.MoveBallAndBounce | src/scenes/Game.ts:84-96 | the ball part of the frame changes the fields as `Frame.MoveBall` says and nothing else |
| Scene.Game.CheckCollision | src/scenes/Game.ts:99-111 | the collision part of the frame changes the fields as `Frame.Collide` says and nothing else |
| Scene.Play | src/scenes/Game.ts:44-112 | a fresh scene updated once per input ends in the state `Frame.Run` gives from the created state, with a score that is a multiple of 10 in [0, 10n] and speeds 200 and 150 |

## Left out

- Rendering: the camera background colour, the background image and its alpha, the ball's red fill, the text style, and the text `'Score: ' + score` written on a hit (src/scenes/Game.ts:21-25, 31, 35, 106). They only affect the display.
- Input polling through `createCursorKeys` (src/scenes/Game.ts:29). The four arrow keys are a `Cursors` value passed to `Update`.
- The `pointerdown` handler that starts the `GameOver` scene (src/scenes/Game.ts:37-41). It belongs to the scene framework and its events, not to the frame logic.
- The `time` parameter of `update`. The source never reads it.
- Phaser's `getBounds` and `Intersects.RectangleToRectangle`. They are library code that is not part of this model; `Frame.Intersects` is the assumed closed box test described above.
- IEEE double rounding of `delta / 1000` and of the position sums. The model uses exact reals.
- A negative `delta`: `update` uses it as given (src/scenes/Game.ts:84-85), and so does the model.
- The frame driver's timing. `Frame.Run` and `Scene.Play` take the frames as a given sequence of keys and `delta` values.
- The generated vite dev-server configuration. It has no game logic.
