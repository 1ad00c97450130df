/**
 * The two paddle controllers: the player's, driven by two logical keys,
 * and the scripted opponent's, which chases the ball's vertical centre.
 * Both end with the same clamp to the playfield.
 */
module Paddles {
  import opened Config
  import opened Geometry

  /**
   * The clamp both controllers apply after moving: first a top above the
   * field is set to 0, then a bottom below the field is set to HEIGHT.
   * For a paddle that fits, this is the projection of y onto [0, HEIGHT - h].
   */
  function Clamp(r: Rect): (c: Rect)
    ensures c.x == r.x && c.w == r.w && c.h == r.h
    ensures r.h <= HEIGHT ==> c.InField() && c.y == MaxI(0, MinI(HEIGHT - r.h, r.y))
  {
    var r1 := if r.Top() < 0 then r.SetTop(0) else r;
    if r1.Bottom() > HEIGHT then r1.SetBottom(HEIGHT) else r1
  }

  /** A rectangle already inside the field is left where it is by the clamp. */
  lemma ClampKeepsInField(r: Rect)
    requires r.InField()
    ensures Clamp(r) == r
  {
  }

  /**
   * The player's pre-clamp displacement: "up" contributes -PADDLE_SPEED and
   * "down" +PADDLE_SPEED, so pressing both cancels out.
   */
  function PlayerDelta(up: bool, down: bool): (dy: int)
    ensures up == down ==> dy == 0
    ensures up && !down ==> dy == -PADDLE_SPEED
    ensures down && !up ==> dy == PADDLE_SPEED
  {
    (if up then -PADDLE_SPEED else 0) + (if down then PADDLE_SPEED else 0)
  }

  /** handle_player_input with the keyboard reduced to the two logical keys. */
  function PlayerInput(p: Rect, up: bool, down: bool): (r: Rect)
    ensures r.x == p.x && r.w == p.w && r.h == p.h
    ensures p.h <= HEIGHT ==> r.InField()
    ensures p.h <= HEIGHT ==>
      r.y == MaxI(0, MinI(HEIGHT - p.h, p.y + PlayerDelta(up, down)))
    ensures p.InField() && up == down ==> r == p
  {
    Clamp(p.(y := p.y + PlayerDelta(up, down)))
  }

  /**
   * The opponent's pre-clamp displacement: none while its centre is within
   * AI_DEADZONE of the ball's centre, otherwise AI_SPEED toward the ball
   * (screen y grows downward, so a positive step moves the paddle down).
   */
  function AiDelta(ai: Rect, ball: Rect): (dy: int)
    ensures dy == 0 <==> AbsI(ai.CenterY() - ball.CenterY()) <= AI_DEADZONE
    ensures dy != 0 ==> AbsI(dy) == AI_SPEED
    ensures dy > 0 <==> ai.CenterY() < ball.CenterY() - AI_DEADZONE
    ensures dy < 0 <==> ai.CenterY() > ball.CenterY() + AI_DEADZONE
  {
    if ai.CenterY() < ball.CenterY() - AI_DEADZONE then AI_SPEED
    else if ai.CenterY() > ball.CenterY() + AI_DEADZONE then -AI_SPEED
    else 0
  }

  /** handle_ai: step toward the ball outside the deadzone, then clamp. */
  function Ai(ai: Rect, ball: Rect): (r: Rect)
    ensures r.x == ai.x && r.w == ai.w && r.h == ai.h
    ensures ai.h <= HEIGHT ==> r.InField()
    ensures ai.h <= HEIGHT ==>
      r.y == MaxI(0, MinI(HEIGHT - ai.h, ai.y + AiDelta(ai, ball)))
    ensures ai.InField() && AbsI(ai.CenterY() - ball.CenterY()) <= AI_DEADZONE ==> r == ai
  {
    Clamp(ai.(y := ai.y + AiDelta(ai, ball)))
  }

  /**
   * One controller step never leaves the opponent further from the centre
   * of the ball it was shown (the ball as it stood before it moves this
   * frame): its step of AI_SPEED cannot overshoot by more than it gains
   * (it only moves when more than AI_DEADZONE away), and the clamp only
   * pulls it back toward where it started.
   */
  lemma AiNeverDrifts(ai: Rect, ball: Rect)
    requires ai.InField()
    ensures AbsI(Ai(ai, ball).CenterY() - ball.CenterY()) <= AbsI(ai.CenterY() - ball.CenterY())
  {
  }
}
