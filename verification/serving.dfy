/**
 * Serving: the fresh velocity given to the ball at the start of the match
 * and after every point, and the re-centring of the ball that precedes it.
 */
module Serving {
  import opened Config
  import opened Geometry

  /**
   * The anti-flat rule shared by serves and paddle bounces: a vertical
   * speed below MIN_VY in magnitude is pushed out to MIN_VY, keeping its
   * sign, with zero counted as downward.
   */
  function AntiFlat(vy: real): (r: real)
    ensures AbsR(r) == MaxR(MIN_VY, AbsR(vy))
    ensures r > 0.0 <==> vy >= 0.0
    ensures MIN_VY <= AbsR(vy) ==> r == vy
  {
    if AbsR(vy) < MIN_VY then (if vy >= 0.0 then MIN_VY else -MIN_VY) else vy
  }

  /**
   * serve_ball after its random rotation: `rotatedVy` is the y component of
   * the base speed rotated by the randomly chosen angle. The horizontal
   * speed is the base speed in the serve direction; the vertical speed is
   * clamped to BALL_MAX_VY and then kept away from flat.
   */
  function Serve(direction: int, rotatedVy: real): (v: Vel)
    ensures v.vx == (BALL_BASE_SPEED * direction) as real
    ensures MIN_VY <= AbsR(v.vy) <= BALL_MAX_VY as real
    ensures AbsR(v.vy) == MaxR(MIN_VY, MinR(BALL_MAX_VY as real, AbsR(rotatedVy)))
    ensures v.vy > 0.0 <==> rotatedVy >= 0.0
  {
    var vy := MaxR(-(BALL_MAX_VY as real), MinR(BALL_MAX_VY as real, rotatedVy));
    Vel((BALL_BASE_SPEED * direction) as real, AntiFlat(vy))
  }

  /** A rotated speed already within [MIN_VY, BALL_MAX_VY] in magnitude is served unchanged. */
  lemma ServeKeepsModerateAngle(direction: int, rotatedVy: real)
    requires MIN_VY <= AbsR(rotatedVy) <= BALL_MAX_VY as real
    ensures Serve(direction, rotatedVy).vy == rotatedVy
  {
  }

  /** A serve in direction +1 or -1 travels that way horizontally. */
  lemma ServeDirection(direction: int, rotatedVy: real)
    requires direction == 1 || direction == -1
    ensures var v := Serve(direction, rotatedVy);
      (direction == 1 ==> v.vx > 0.0) && (direction == -1 ==> v.vx < 0.0) &&
      AbsR(v.vx) == BALL_BASE_SPEED as real
  {
  }

  /** reset_ball: put the ball's centre on the middle of the field, then serve. */
  function Reset(ball: Rect, direction: int, rotatedVy: real): (s: Motion)
    ensures s.ball.CenterX() == WIDTH / 2 && s.ball.CenterY() == HEIGHT / 2
    ensures s.ball.w == ball.w && s.ball.h == ball.h
    ensures s.vel == Serve(direction, rotatedVy)
    ensures ball.h <= HEIGHT ==> s.ball.InField()
  {
    Motion(ball.SetCenter(WIDTH / 2, HEIGHT / 2), Serve(direction, rotatedVy))
  }
}
