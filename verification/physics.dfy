/**
 * One step of the ball: integrate the truncated velocity, bounce off the
 * top or bottom wall, then bounce off a paddle it overlaps while heading
 * toward that paddle's side.
 */
module Physics {
  import opened Config
  import opened Geometry
  import opened Serving

  /**
   * The rule for the horizontal direction after a paddle bounce. The program
   * is `AsWritten`: a left-paddle hit leaves the ball heading left and a
   * right-paddle hit leaves it heading right. `Intended` is the reversal the
   * surrounding code and comments call for (see README, Findings).
   */
  datatype Bounce = AsWritten | Intended

  /** Move the ball by the truncated velocity: never further than the speed, never backwards. */
  function Advance(ball: Rect, vel: Vel): (r: Rect)
    ensures r.w == ball.w && r.h == ball.h
    ensures AbsI(r.x - ball.x) as real <= AbsR(vel.vx) < AbsI(r.x - ball.x) as real + 1.0
    ensures AbsI(r.y - ball.y) as real <= AbsR(vel.vy) < AbsI(r.y - ball.y) as real + 1.0
    ensures (vel.vx >= 0.0 ==> r.x >= ball.x) && (vel.vx <= 0.0 ==> r.x <= ball.x)
    ensures (vel.vy >= 0.0 ==> r.y >= ball.y) && (vel.vy <= 0.0 ==> r.y <= ball.y)
  {
    ball.(x := ball.x + Trunc(vel.vx), y := ball.y + Trunc(vel.vy))
  }

  /**
   * Top and bottom walls: a ball touching or past the top is put at the top
   * and its vertical speed negated; otherwise one touching or past the
   * bottom is put at the bottom and negated. The horizontal part and the
   * vertical speed's magnitude never change.
   */
  function WallBounce(b: Rect, vel: Vel): (m: Motion)
    ensures m.ball.x == b.x && m.ball.w == b.w && m.ball.h == b.h
    ensures m.vel.vx == vel.vx && AbsR(m.vel.vy) == AbsR(vel.vy)
    ensures b.Top() <= 0 ==> m.ball.Top() == 0 && m.vel.vy == -vel.vy
    ensures 0 < b.Top() && HEIGHT <= b.Bottom() ==> m.ball.Bottom() == HEIGHT && m.vel.vy == -vel.vy
    ensures 0 < b.Top() && b.Bottom() < HEIGHT ==> m == Motion(b, vel)
    ensures b.h <= HEIGHT ==> m.ball.InField()
  {
    if b.Top() <= 0 then Motion(b.SetTop(0), vel.(vy := -vel.vy))
    else if b.Bottom() >= HEIGHT then Motion(b.SetBottom(HEIGHT), vel.(vy := -vel.vy))
    else Motion(b, vel)
  }

  /** A ball shorter than the field cannot touch both walls, so at most one wall rule applies. */
  lemma WallCasesExclusive(b: Rect)
    requires b.h < HEIGHT
    ensures !(b.Top() <= 0 && HEIGHT <= b.Bottom())
  {
  }

  /**
   * The vertical speed a paddle bounce derives from where the ball struck:
   * the offset of the centres in units of half the paddle height, times
   * BALL_MAX_VY.
   */
  function HitVy(ball: Rect, paddle: Rect): (vy: real)
    ensures vy >= 0.0 <==> ball.CenterY() >= paddle.CenterY()
    ensures AbsR(vy) * (PADDLE_HEIGHT as real / 2.0)
      == AbsI(ball.CenterY() - paddle.CenterY()) as real * BALL_MAX_VY as real
  {
    var offset := (ball.CenterY() - paddle.CenterY()) as real / (PADDLE_HEIGHT as real / 2.0);
    offset * BALL_MAX_VY as real
  }

  /**
   * reflect_ball_from_paddle. The horizontal speed keeps its magnitude and
   * takes the sign the `bounce` rule gives it; the vertical speed is
   * re-derived from the hit offset (a hit at or below the paddle's centre
   * sends the ball down) and kept away from flat; the ball is put flush
   * against the paddle face on its inner side, at the same height.
   */
  function Reflect(ball: Rect, paddle: Rect, vel: Vel, isLeft: bool, bounce: Bounce): (m: Motion)
    ensures AbsR(m.vel.vx) == AbsR(vel.vx)
    ensures bounce == AsWritten ==> (if isLeft then m.vel.vx <= 0.0 else m.vel.vx >= 0.0)
    ensures bounce == Intended ==> (if isLeft then m.vel.vx >= 0.0 else m.vel.vx <= 0.0)
    ensures var d := ball.CenterY() - paddle.CenterY();
      && AbsR(m.vel.vy) == MaxR(MIN_VY, AbsI(d) as real * BALL_MAX_VY as real / (PADDLE_HEIGHT as real / 2.0))
      && (m.vel.vy > 0.0 <==> d >= 0)
    ensures MIN_VY <= AbsR(HitVy(ball, paddle)) ==> m.vel.vy == HitVy(ball, paddle)
    ensures isLeft ==> m.ball.Left() == paddle.Right()
    ensures !isLeft ==> m.ball.Right() == paddle.Left()
    ensures m.ball.y == ball.y && m.ball.w == ball.w && m.ball.h == ball.h
  {
    var speedX := AbsR(vel.vx);
    var vx := match bounce
      case AsWritten => if !isLeft then speedX else -speedX
      case Intended => if isLeft then speedX else -speedX;
    var b := if isLeft then ball.SetLeft(paddle.Right()) else ball.SetRight(paddle.Left());
    Motion(b, Vel(vx, AntiFlat(HitVy(ball, paddle))))
  }

  /** The ball after integrating and bouncing off a wall, before the paddles are looked at. */
  function Flight(ball: Rect, vel: Vel): Motion {
    WallBounce(Advance(ball, vel), vel)
  }

  /** The left (player) paddle is hit: overlap while heading left. */
  predicate HitsLeft(f: Motion, player: Rect) {
    Collide(f.ball, player) && f.vel.vx < 0.0
  }

  /** The right (opponent) paddle is hit: no left hit, overlap while heading right. */
  predicate HitsRight(f: Motion, player: Rect, ai: Rect) {
    !HitsLeft(f, player) && Collide(f.ball, ai) && f.vel.vx > 0.0
  }

  /**
   * update_ball. The ball keeps its size and stays vertically inside the
   * field; without a paddle hit it is exactly the wall step's result; after
   * a hit it sits flush against the struck face with a vertical speed of at
   * least MIN_VY; the horizontal speed's magnitude never changes.
   */
  function UpdateBall(ball: Rect, vel: Vel, player: Rect, ai: Rect, bounce: Bounce): (m: Motion)
    ensures m.ball.w == ball.w && m.ball.h == ball.h
    ensures ball.h <= HEIGHT ==> m.ball.InField()
    ensures AbsR(m.vel.vx) == AbsR(vel.vx)
    ensures var f := Flight(ball, vel);
      && (!HitsLeft(f, player) && !HitsRight(f, player, ai) ==> m == f)
      && (HitsLeft(f, player) ==> m == Reflect(f.ball, player, f.vel, true, bounce))
      && (HitsRight(f, player, ai) ==> m == Reflect(f.ball, ai, f.vel, false, bounce))
      && (HitsLeft(f, player) ==> m.ball.Left() == player.Right() && MIN_VY <= AbsR(m.vel.vy))
      && (HitsRight(f, player, ai) ==> m.ball.Right() == ai.Left() && MIN_VY <= AbsR(m.vel.vy))
  {
    var f := Flight(ball, vel);
    if HitsLeft(f, player) then Reflect(f.ball, player, f.vel, true, bounce)
    else if HitsRight(f, player, ai) then Reflect(f.ball, ai, f.vel, false, bounce)
    else f
  }

  /**
   * As written, the guards and the sign rule cancel out: a left hit needs
   * vx < 0 and leaves vx = -|vx|, a right hit needs vx > 0 and leaves
   * vx = |vx|. So a ball step never changes the horizontal velocity.
   */
  lemma AsWrittenNeverReverses(ball: Rect, vel: Vel, player: Rect, ai: Rect)
    ensures UpdateBall(ball, vel, player, ai, AsWritten).vel.vx == vel.vx
  {
  }

  /** With the intended sign rule every paddle hit reverses the ball horizontally. */
  lemma IntendedReverses(ball: Rect, vel: Vel, player: Rect, ai: Rect)
    ensures var f := Flight(ball, vel);
      var m := UpdateBall(ball, vel, player, ai, Intended);
      && (HitsLeft(f, player) ==> m.vel.vx == -vel.vx && m.vel.vx > 0.0)
      && (HitsRight(f, player, ai) ==> m.vel.vx == -vel.vx && m.vel.vx < 0.0)
      && (!HitsLeft(f, player) && !HitsRight(f, player, ai) ==> m.vel.vx == vel.vx)
  {
  }

  /**
   * A ball that overlaps a paddle is at most 56 pixels from its centre, so
   * the bounce leaves its vertical speed at most 7.84 = 56 * 7 / 50.
   */
  lemma ReflectVyBound(ball: Rect, paddle: Rect, vel: Vel, isLeft: bool, bounce: Bounce)
    requires Collide(ball, paddle)
    requires ball.h == BALL_SIZE && paddle.h == PADDLE_HEIGHT
    ensures MIN_VY <= AbsR(Reflect(ball, paddle, vel, isLeft, bounce).vel.vy) <= 196.0 / 25.0
  {
  }
}
