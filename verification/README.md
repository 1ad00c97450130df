# Pong with a scripted opponent — a Dafny model of the game logic

This project models the game logic of `pong_ai.py`: a two-paddle ball game on a
900 x 540 field. The player's paddle on the left is driven by two logical keys.
The opponent's paddle on the right chases the ball's vertical centre. The ball
moves by its truncated velocity, bounces off the top and bottom walls and off the
paddles, and is re-served from the centre after each point. Everything is pure
integer geometry on pygame-style rectangles, with exact `real` velocities.

Modules, one per component of the program:

- `Config` (config.dfy): the design constants (field size, sizes, speeds, deadzone).
- `Geometry` (geometry.dfy): the `Rect` datatype with the pygame getter/setter meaning
  (`top = y`, `bottom = y + h`, `centery = y + h // 2`; assigning `bottom`, `right` or
  `center` moves the rectangle and keeps its size), `colliderect` as strict overlap
  on both axes, the `Vel` and `Motion` records, and truncation toward zero (`int()`).
- `Serving` (serving.dfy): `serve_ball` after its rotation, the shared anti-flat rule, `reset_ball`.
- `Paddles` (paddles.dfy): the screen clamp, `handle_player_input`, `handle_ai`.
- `Physics` (physics.dfy): `reflect_ball_from_paddle` and `update_ball`.
- `Match` (match.dfy): the loop of `main` as a pure frame transition over a `Game` record,
  its invariant, and runs of frames.

The random choices (serve angle, first serve direction) and the trigonometric
rotation are parameters. A serve takes `rotatedVy`, the y component of the rotated
base velocity, as an arbitrary real. A frame takes a `FrameInput` holding the two
keys and that value.

Paddle bounces take a `Bounce` parameter. `AsWritten` is line 84 of the program
exactly as it stands; it is what the program does. `Intended` is the corrected sign
rule described under Findings. Every frame-level property (validity, score
monotonicity, serve direction) is proved for both rules.

In two places the code does something other than what its own comments say.
The model follows the code:

- Paddle bounce direction: see Findings.
- Serve direction after a point. The comments at lines 183 and 186 say the serve
  goes toward the side that conceded ("to the right, toward the player"). The code
  serves `+1` after the opponent scores. That is to the right, toward the
  opponent's paddle. It serves `-1`, toward the player, after the player scores.
  So the ball is served toward the scorer (`Match.ServeTowardScorer`), and the
  docstring at line 26 agrees with the code about which side is which.

## Model

| member | source | states |
|---|---|---|
| Geometry.Trunc | pong_ai.py:106-107 | `int()` on a float rounds toward zero: the result is never larger than the argument in magnitude, never of the opposite sign, and within 1 of it |
| Geometry.Rect.SetTop | pong_ai.py:57 | assigning `top` puts the top edge at the value and keeps x, width and height |
| Geometry.Rect.SetLeft | pong_ai.py:95 | assigning `left` puts the left edge at the value and keeps y, width and height |
| Geometry.Rect.SetBottom | pong_ai.py:59 | assigning `bottom` moves the rectangle so its bottom edge is the value, keeping x, width and height |
| Geometry.Rect.SetRight | pong_ai.py:97 | assigning `right` moves the rectangle so its right edge is the value, keeping y, width and height |
| Geometry.Rect.SetCenter | pong_ai.py:43 | assigning `center` makes both centre coordinates (with floor halving) equal the given point and keeps the size |
| Geometry.Collide | pong_ai.py:118-120 | `colliderect`: rectangles whose intersection has positive width and height collide; for non-empty rectangles, they collide exactly then |
| Serving.AntiFlat | pong_ai.py:36-38 | a vertical speed below 2 in magnitude becomes ±2 with its sign kept (0 counts as downward); the magnitude is max(2, old magnitude); a speed of at least 2 is untouched |
| Serving.Serve | pong_ai.py:24-39 | the serve's vx is 6 times the direction; its vy lies in [2, 7] in magnitude, equals max(2, min(7, \|rotated vy\|)) in magnitude, and points down exactly when the rotated vy is non-negative |
| Serving.ServeKeepsModerateAngle | pong_ai.py:35-38 | a rotated vertical speed already within [2, 7] in magnitude is served unchanged |
| Serving.ServeDirection | pong_ai.py:32 | a serve in direction +1 moves right and one in direction -1 moves left, both at the base speed 6 |
| Serving.Reset | pong_ai.py:42-44 | after reset the ball's centre is (450, 270), its size is unchanged, it lies inside the field, and its velocity is a fresh serve |
| Paddles.Clamp | pong_ai.py:55-59 | the clamp changes only y; for a paddle no taller than the field it lands inside the field at y = max(0, min(HEIGHT - h, y)), i.e. it is the nearest in-field position |
| Paddles.ClampKeepsInField | pong_ai.py:68-72 | a paddle already inside the field is not moved by the clamp |
| Paddles.PlayerDelta | pong_ai.py:49-53 | both keys or neither give no move; up alone moves by -7; down alone moves by +7 |
| Paddles.PlayerInput | pong_ai.py:47-59 | x, width and height never change; the paddle ends inside the field at the clamped position of y + delta; an in-field paddle with both or no keys pressed is unchanged |
| Paddles.AiDelta | pong_ai.py:63-67 | no move exactly when the centres are at most 4 apart; otherwise a step of exactly 6 toward the ball's centre: down when the paddle is above it, up when below it |
| Paddles.Ai | pong_ai.py:62-72 | x, width and height never change; the paddle ends inside the field at the clamped position of y + delta; an in-field paddle inside the deadzone is unchanged |
| Paddles.AiNeverDrifts | pong_ai.py:62-72 | from an in-field position, one `handle_ai` step never leaves the opponent further from the centre of the ball it was shown (the ball before it moves this frame; the ball's own move can still widen the gap) |
| Physics.Advance | pong_ai.py:105-107 | the ball moves by less than one pixel short of its speed on each axis, never further than the speed, and never against the velocity's sign |
| Physics.WallBounce | pong_ai.py:109-115 | at or past the top, top becomes 0 and vy is negated; otherwise at or past the bottom, bottom becomes 540 and vy is negated; otherwise nothing changes; x, vx and \|vy\| are kept and the ball ends inside the field |
| Physics.WallCasesExclusive | pong_ai.py:110-113 | a ball shorter than the field cannot be at or past both walls at once |
| Physics.HitVy | pong_ai.py:87-88 | the raw bounce speed is non-negative exactly when the ball's centre is at or below the paddle's, and its magnitude times 50 is 7 times the centre distance |
| Physics.Reflect | pong_ai.py:75-99 | \|vx\| is kept; as written a left-paddle hit gives vx <= 0 and a right-paddle hit vx >= 0 (the intended rule the opposite); \|vy\| = max(2, \|offset\| * 7) with offset the centre difference over 50, and vy = offset * 7 when that is at least 2 in magnitude; vy points down exactly when the ball's centre is at or below the paddle's; the ball ends flush on the paddle's inner face at the same height |
| Physics.UpdateBall | pong_ai.py:102-123 | the ball keeps its size, ends inside the field and keeps \|vx\|; with no paddle hit it is exactly the moved-and-wall-bounced ball; a left hit (overlap while vx < 0) gives the left-paddle reflection of that ball, otherwise a right hit (overlap while vx > 0) gives the right-paddle one; after a left hit its left edge is the player's right edge, after a right hit its right edge is the opponent's left edge, in both cases with \|vy\| >= 2 |
| Physics.AsWrittenNeverReverses | pong_ai.py:83-121 | as written, a ball step never changes vx: the guards vx < 0 / vx > 0 and the sign rule of line 84 cancel out |
| Physics.IntendedReverses | pong_ai.py:82-84 | with the intended sign rule, a left-paddle hit turns the ball right and a right-paddle hit turns it left, each time with vx' = -vx; with no hit vx is kept |
| Physics.ReflectVyBound | pong_ai.py:87-91 | a ball overlapping a paddle is at most 56 pixels from its centre, so after the bounce 2 <= \|vy\| <= 7.84 |
| Match.Init | pong_ai.py:144-164 | the first state has both scores 0, both paddles and the ball centred, a serve in the chosen direction, and is valid for direction ±1 |
| Match.Play | pong_ai.py:173-176 | the controller and ball updates leave the scores alone |
| Match.ScorePoint | pong_ai.py:179-186 | a ball wholly past the left edge scores for the opponent and is re-served from the centre in direction +1; else one wholly past the right edge scores for the player and is re-served in direction -1; otherwise the state is unchanged; the paddles are never touched |
| Match.Frame | pong_ai.py:173-186 | in one frame neither score decreases, at most one increases, and each increases exactly when the moved ball has left the field on the other side |
| Match.ServeTowardScorer | pong_ai.py:179-186 | after the opponent scores the new serve moves right (toward the opponent); after the player scores it moves left |
| Match.FramePreservesValid | pong_ai.py:173-186 | a frame keeps paddles at their columns, sizes and inside the field, the ball inside the field vertically and not wholly past either side, \|vx\| = 6 and 2 <= \|vy\| <= 7.84 |
| Match.Run | pong_ai.py:166-186 | running the loop over any sequence of frames never lowers either score |
| Match.RunPreservesValid | pong_ai.py:166-186 | validity holds after any number of frames |
| Match.RunScoresMonotone | pong_ai.py:166-186 | over any run neither score decreases and the total rises by at most one per frame |
| Match.RallyNeverTurns | pong_ai.py:166-186 | as written, over any run in which no point is scored the ball's vx ends as it started: no paddle ever turns the ball around |
| Match.FreeFlightExample | pong_ai.py:105-123 | a ball at the centre with velocity (6, 3) moves by exactly (6, 3) and keeps its velocity |
| Match.LeftPaddleHitExample | pong_ai.py:118-119 | a concrete left-paddle hit: as written the ball is put flush at x = 38 but keeps vx = -6; with the intended rule vx = +6; vy is re-derived as 2 |
| Match.OpponentScoresExample | pong_ai.py:179-183 | a concrete frame in which the ball leaves on the left: the opponent's score goes from 7 to 8 and the ball is re-served from (443, 263) with velocity (6, 2) |

## Left out

- Drawing: `draw_center_line`, the screen fill, the draw calls, font rendering and text layout in `main`.
- Platform plumbing: `pygame.init`, the display, `clock.tick`, event polling, and the QUIT/ESC exit. A run is a finite sequence of frame inputs; stopping the loop is the caller's choice of its length.
- `pygame.key.get_pressed`: the four physical keys are reduced to the two logical booleans they feed (W or Up, S or Down).
- Randomness: the serve angle (line 30) and the first serve direction (line 163) are parameters.
- The rotation `Vector2(1, 0).rotate(angle)` (line 34): it is floating-point trigonometry, so its y component is an arbitrary real input. For the angles used, 6·sin(10°) and 6·sin(15°) lie below 2 and are raised to ±2, and 6·sin(25°) is about 2.54. This is not proved.
- Floating-point rounding: velocities and the bounce offset are exact reals.
- Geometry.Collide: pygame's rule that rectangles of zero width or height never collide is not modelled, so the intersection form is promised only for non-empty rectangles. All rectangles in the game are non-empty, so strict overlap decides collision.
- Negative rectangle sizes and pygame's C-integer coordinate limits are not modelled. Sizes are naturals and coordinates unbounded integers; every coordinate in the game stays small.

## Findings

| source | as written | input that shows it | evidently intended | confidence | as-written member | corrected member |
|---|---|---|---|---|---|---|
| pong_ai.py:84 | `vel.x = speed_x if not is_left_paddle else -speed_x`: a left-paddle hit leaves vx negative and a right-paddle hit leaves it positive. With the guards at lines 118-121 (`vx < 0` for the left paddle, `vx > 0` for the right), a bounce never changes vx. The ball is pushed flush against the paddle face but keeps heading into it. | ball (40, 263, 14, 14), velocity (-6, 3), player paddle (24, 220, 14, 100): after the step the ball is at x = 38 with vx still -6 | `speed_x if is_left_paddle else -speed_x`: the ball leaves the left paddle heading right and the right paddle heading left, as the docstring "bounce the ball" and the direction guards call for | high; not executed | Physics.AsWrittenNeverReverses | Physics.IntendedReverses |

`Match.LeftPaddleHitExample` shows the input from the table under both rules.
`Match.RallyNeverTurns` carries the as-written behaviour over whole rallies.
The whole frame model is parameterised by the bounce rule (`Bounce.Intended` selects
the correction), and all of its invariants are proved for both.
