/**
 * The match loop of `main` with drawing, event polling and frame pacing
 * removed: a game state, the per-frame transition (player, opponent, ball,
 * scoring) and runs of frames.
 */
module Match {
  import opened Config
  import opened Geometry
  import opened Serving
  import opened Paddles
  import opened Physics

  /** Everything the loop carries from one frame to the next. */
  datatype Game = Game(player: Rect, ai: Rect, ball: Rect, vel: Vel, scorePlayer: nat, scoreAi: nat)

  /**
   * What the environment supplies for one frame: the two logical keys
   * (W or Up, S or Down) and the rotated vertical speed that a serve made
   * during this frame would start from.
   */
  datatype FrameInput = FrameInput(up: bool, down: bool, serveVy: real)

  /** The paddles of a fresh match: at their columns, vertically centred. */
  const START_PLAYER: Rect := Rect(MARGIN, HEIGHT / 2 - PADDLE_HEIGHT / 2, PADDLE_WIDTH, PADDLE_HEIGHT)
  const START_AI: Rect := Rect(WIDTH - MARGIN - PADDLE_WIDTH, HEIGHT / 2 - PADDLE_HEIGHT / 2, PADDLE_WIDTH, PADDLE_HEIGHT)

  /** Largest vertical speed a paddle bounce can produce: 56 * 7 / 50. */
  const MAX_BOUNCE_VY: real := 196.0 / 25.0

  /**
   * The state every frame preserves: paddles at their fixed columns, with
   * their fixed sizes, inside the field; the ball of its fixed size,
   * vertically inside the field and not yet wholly past either side; the
   * ball moving at the base horizontal speed with a vertical speed between
   * MIN_VY and MAX_BOUNCE_VY.
   */
  predicate Valid(g: Game) {
    && g.player.x == MARGIN && g.player.w == PADDLE_WIDTH && g.player.h == PADDLE_HEIGHT
    && g.player.InField()
    && g.ai.x == WIDTH - MARGIN - PADDLE_WIDTH && g.ai.w == PADDLE_WIDTH && g.ai.h == PADDLE_HEIGHT
    && g.ai.InField()
    && g.ball.w == BALL_SIZE && g.ball.h == BALL_SIZE && g.ball.InField()
    && 0 <= g.ball.Right() && g.ball.Left() <= WIDTH
    && AbsR(g.vel.vx) == BALL_BASE_SPEED as real
    && MIN_VY <= AbsR(g.vel.vy) <= MAX_BOUNCE_VY
  }

  /**
   * The state before the first frame: both paddles vertically centred at
   * their columns, the ball reset to the centre and served in `direction`,
   * both scores zero. The random direction and angle are parameters.
   */
  function Init(direction: int, serveVy: real): (g: Game)
    ensures g.scorePlayer == 0 && g.scoreAi == 0
    ensures g.player.CenterY() == HEIGHT / 2 && g.ai.CenterY() == HEIGHT / 2
    ensures g.ball.CenterX() == WIDTH / 2 && g.ball.CenterY() == HEIGHT / 2
    ensures g.vel == Serve(direction, serveVy)
    ensures direction == 1 || direction == -1 ==> Valid(g)
  {
    var ball := Rect(WIDTH / 2 - BALL_SIZE / 2, HEIGHT / 2 - BALL_SIZE / 2, BALL_SIZE, BALL_SIZE);
    var m := Reset(ball, direction, serveVy);
    Game(START_PLAYER, START_AI, m.ball, m.vel, 0, 0)
  }

  /** Steps 1-2 of a frame: the player's paddle, then the opponent's (which sees the ball before it moves), then the ball. */
  function Play(g: Game, inp: FrameInput, bounce: Bounce): (s: Game)
    ensures s.scorePlayer == g.scorePlayer && s.scoreAi == g.scoreAi
  {
    var player := PlayerInput(g.player, inp.up, inp.down);
    var ai := Ai(g.ai, g.ball);
    var m := UpdateBall(g.ball, g.vel, player, ai, bounce);
    g.(player := player, ai := ai, ball := m.ball, vel := m.vel)
  }

  /**
   * Step 3 of a frame: a ball wholly past the left edge is a point for the
   * opponent and is re-served toward the right (+1); otherwise one wholly
   * past the right edge is a point for the player and is re-served toward
   * the left (-1); otherwise nothing changes.
   */
  function ScorePoint(s: Game, serveVy: real): (g: Game)
    ensures g.player == s.player && g.ai == s.ai
    ensures s.ball.Right() < 0 ==>
      && g.scoreAi == s.scoreAi + 1 && g.scorePlayer == s.scorePlayer
      && g.ball.CenterX() == WIDTH / 2 && g.ball.CenterY() == HEIGHT / 2
      && g.vel == Serve(1, serveVy)
    ensures 0 <= s.ball.Right() && WIDTH < s.ball.Left() ==>
      && g.scorePlayer == s.scorePlayer + 1 && g.scoreAi == s.scoreAi
      && g.ball.CenterX() == WIDTH / 2 && g.ball.CenterY() == HEIGHT / 2
      && g.vel == Serve(-1, serveVy)
    ensures 0 <= s.ball.Right() && s.ball.Left() <= WIDTH ==> g == s
    ensures g.ball.w == s.ball.w && g.ball.h == s.ball.h
  {
    if s.ball.Right() < 0 then
      var m := Reset(s.ball, 1, serveVy);
      s.(scoreAi := s.scoreAi + 1, ball := m.ball, vel := m.vel)
    else if s.ball.Left() > WIDTH then
      var m := Reset(s.ball, -1, serveVy);
      s.(scorePlayer := s.scorePlayer + 1, ball := m.ball, vel := m.vel)
    else s
  }

  /**
   * One frame. Scores never decrease, at most one of them goes up, and each
   * goes up exactly when the moved ball has left the field on the other
   * player's side.
   */
  function Frame(g: Game, inp: FrameInput, bounce: Bounce): (g': Game)
    ensures g'.scorePlayer >= g.scorePlayer && g'.scoreAi >= g.scoreAi
    ensures g'.scorePlayer + g'.scoreAi <= g.scorePlayer + g.scoreAi + 1
    ensures var s := Play(g, inp, bounce);
      && (g'.scoreAi == g.scoreAi + 1 <==> s.ball.Right() < 0)
      && (g'.scorePlayer == g.scorePlayer + 1 <==> 0 <= s.ball.Right() && WIDTH < s.ball.Left())
  {
    ScorePoint(Play(g, inp, bounce), inp.serveVy)
  }

  /**
   * The serve after a point heads toward the side that scored: right, toward
   * the opponent, after the opponent scores; left, toward the player, after
   * the player scores.
   */
  lemma ServeTowardScorer(g: Game, inp: FrameInput, bounce: Bounce)
    ensures var g' := Frame(g, inp, bounce);
      && (g'.scoreAi > g.scoreAi ==> g'.vel.vx > 0.0)
      && (g'.scorePlayer > g.scorePlayer ==> g'.vel.vx < 0.0)
  {
  }

  /** Every frame, under either bounce rule, keeps the game valid. */
  lemma FramePreservesValid(g: Game, inp: FrameInput, bounce: Bounce)
    requires Valid(g)
    ensures Valid(Frame(g, inp, bounce))
  {
    var player := PlayerInput(g.player, inp.up, inp.down);
    var ai := Ai(g.ai, g.ball);
    var f := Flight(g.ball, g.vel);
    if HitsLeft(f, player) {
      ReflectVyBound(f.ball, player, f.vel, true, bounce);
    } else if HitsRight(f, player, ai) {
      ReflectVyBound(f.ball, ai, f.vel, false, bounce);
    }
  }

  /** Play `inputs` frame by frame from `g`. */
  function Run(g: Game, inputs: seq<FrameInput>, bounce: Bounce): (e: Game)
    ensures e.scorePlayer >= g.scorePlayer && e.scoreAi >= g.scoreAi
    decreases |inputs|
  {
    if |inputs| == 0 then g else Run(Frame(g, inputs[0], bounce), inputs[1..], bounce)
  }

  /** Validity holds after any number of frames. */
  lemma {:induction false} RunPreservesValid(g: Game, inputs: seq<FrameInput>, bounce: Bounce)
    requires Valid(g)
    ensures Valid(Run(g, inputs, bounce))
    decreases |inputs|
  {
    if |inputs| > 0 {
      FramePreservesValid(g, inputs[0], bounce);
      RunPreservesValid(Frame(g, inputs[0], bounce), inputs[1..], bounce);
    }
  }

  /** Over any run, neither score decreases and the total grows by at most one per frame. */
  lemma {:induction false} RunScoresMonotone(g: Game, inputs: seq<FrameInput>, bounce: Bounce)
    ensures var e := Run(g, inputs, bounce);
      && e.scorePlayer >= g.scorePlayer && e.scoreAi >= g.scoreAi
      && e.scorePlayer + e.scoreAi <= g.scorePlayer + g.scoreAi + |inputs|
    decreases |inputs|
  {
    if |inputs| > 0 {
      RunScoresMonotone(Frame(g, inputs[0], bounce), inputs[1..], bounce);
    }
  }

  /**
   * As written, nothing but a serve changes the horizontal velocity: over a
   * run in which no point is scored the ball ends up moving horizontally
   * exactly as it started, so no paddle ever turns it around.
   */
  lemma {:induction false} RallyNeverTurns(g: Game, inputs: seq<FrameInput>)
    requires var e := Run(g, inputs, AsWritten);
      e.scorePlayer == g.scorePlayer && e.scoreAi == g.scoreAi
    ensures Run(g, inputs, AsWritten).vel.vx == g.vel.vx
    decreases |inputs|
  {
    if |inputs| > 0 {
      var g1 := Frame(g, inputs[0], AsWritten);
      RunScoresMonotone(g1, inputs[1..], AsWritten);
      AsWrittenNeverReverses(g.ball, g.vel, PlayerInput(g.player, inputs[0].up, inputs[0].down), Ai(g.ai, g.ball));
      RallyNeverTurns(g1, inputs[1..]);
    }
  }

  /**
   * A ball just left of the field heading left: after the frame it is wholly
   * past the left edge, the opponent scores, and the ball is re-served from
   * the centre toward the right; a rotated speed of 1.5 is raised to 2.
   */
  lemma OpponentScoresExample(bounce: Bounce)
    ensures var g := Game(START_PLAYER, START_AI, Rect(-10, 263, 14, 14), Vel(-6.0, 3.0), 4, 7);
      Frame(g, FrameInput(false, false, 1.5), bounce)
        == Game(START_PLAYER, START_AI, Rect(443, 263, 14, 14), Vel(6.0, 2.0), 4, 8)
  {
    var ball := Rect(-10, 263, 14, 14);
    var g := Game(START_PLAYER, START_AI, ball, Vel(-6.0, 3.0), 4, 7);
    var inp := FrameInput(false, false, 1.5);
    var b := Rect(-16, 266, 14, 14);
    assert Play(g, inp, bounce) == g.(ball := b) by {
      assert PlayerInput(START_PLAYER, false, false) == START_PLAYER;
      assert Ai(START_AI, ball) == START_AI;
      assert Flight(ball, Vel(-6.0, 3.0)) == Motion(b, Vel(-6.0, 3.0));
      assert !Collide(b, START_PLAYER) && !Collide(b, START_AI);
    }
    assert Reset(b, 1, 1.5) == Motion(Rect(443, 263, 14, 14), Vel(6.0, 2.0));
  }

  /** A ball served from the centre with velocity (6, 3) flies freely: it moves by exactly (6, 3). */
  lemma FreeFlightExample(bounce: Bounce)
    ensures UpdateBall(Rect(443, 263, 14, 14), Vel(6.0, 3.0), START_PLAYER, START_AI, bounce)
      == Motion(Rect(449, 266, 14, 14), Vel(6.0, 3.0))
  {
  }

  /**
   * A ball two pixels in front of the player's paddle, heading left at 6:
   * as written it is put flush against the paddle face (left edge 38) but
   * still heads left, so the next frame drives it into the paddle again;
   * with the intended rule it heads right. Either way its vertical speed is
   * re-derived: the 3-pixel offset gives 0.42, raised to 2.
   */
  lemma LeftPaddleHitExample()
    ensures UpdateBall(Rect(40, 263, 14, 14), Vel(-6.0, 3.0), START_PLAYER, START_AI, AsWritten)
      == Motion(Rect(38, 266, 14, 14), Vel(-6.0, 2.0))
    ensures UpdateBall(Rect(40, 263, 14, 14), Vel(-6.0, 3.0), START_PLAYER, START_AI, Intended)
      == Motion(Rect(38, 266, 14, 14), Vel(6.0, 2.0))
  {
  }
}
