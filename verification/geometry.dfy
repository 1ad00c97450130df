/**
 * Integer axis-aligned rectangles with the getter/setter semantics of a
 * pygame Rect, exact real velocities, and the integer truncation the
 * game uses to turn a velocity into a per-frame displacement.
 */
module Geometry {
  import opened Config

  function AbsI(n: int): nat { if n < 0 then -n else n }
  function AbsR(r: real): real { if r < 0.0 then -r else r }
  function MinI(a: int, b: int): int { if a <= b then a else b }
  function MaxI(a: int, b: int): int { if a >= b then a else b }
  function MinR(a: real, b: real): real { if a <= b then a else b }
  function MaxR(a: real, b: real): real { if a >= b then a else b }

  /**
   * Python's int() on a float: rounds toward zero, so the result never
   * exceeds the argument in magnitude and never has the opposite sign.
   */
  function Trunc(r: real): (t: int)
    ensures 0.0 <= r ==> 0 <= t && t as real <= r < t as real + 1.0
    ensures r < 0.0 ==> t <= 0 && t as real - 1.0 < r <= t as real
  {
    if r >= 0.0 then r.Floor else -((-r).Floor)
  }

  /** A velocity in pixels per frame; pygame keeps it as a float vector, modelled exactly. */
  datatype Vel = Vel(vx: real, vy: real)

  /** The ball's rectangle together with its velocity. */
  datatype Motion = Motion(ball: Rect, vel: Vel)

  /**
   * A pygame Rect: top-left corner (x, y) and size (w, h). Every rectangle
   * of the game has a fixed non-negative size, so w and h are naturals.
   */
  datatype Rect = Rect(x: int, y: int, w: nat, h: nat) {
    function Left(): int { x }
    function Top(): int { y }
    function Right(): int { x + w }
    function Bottom(): int { y + h }
    function CenterX(): int { x + w / 2 }
    function CenterY(): int { y + h / 2 }

    /** Assigning `top` or `left` moves the rectangle and keeps its size. */
    function SetTop(t: int): (r: Rect)
      ensures r.Top() == t && r.x == x && r.w == w && r.h == h
    {
      this.(y := t)
    }

    function SetLeft(l: int): (r: Rect)
      ensures r.Left() == l && r.y == y && r.w == w && r.h == h
    {
      this.(x := l)
    }

    /** Assigning `bottom` or `right` moves the rectangle so that edge lands on the value. */
    function SetBottom(b: int): (r: Rect)
      ensures r.Bottom() == b && r.x == x && r.w == w && r.h == h
    {
      this.(y := b - h)
    }

    function SetRight(rt: int): (r: Rect)
      ensures r.Right() == rt && r.y == y && r.w == w && r.h == h
    {
      this.(x := rt - w)
    }

    /** Assigning `center` places the centre point (with floor halving) and keeps the size. */
    function SetCenter(cx: int, cy: int): (r: Rect)
      ensures r.CenterX() == cx && r.CenterY() == cy && r.w == w && r.h == h
    {
      Rect(cx - w / 2, cy - h / 2, w, h)
    }

    /** Lies vertically within the playfield. */
    predicate InField() { 0 <= Top() && Bottom() <= HEIGHT }
  }

  /**
   * pygame's colliderect: the open intervals overlap on both axes, that is,
   * for non-empty rectangles, the intersection of the two has positive
   * width and height.
   */
  predicate Collide(a: Rect, b: Rect): (c: bool)
    ensures (&& MaxI(a.Left(), b.Left()) < MinI(a.Right(), b.Right())
             && MaxI(a.Top(), b.Top()) < MinI(a.Bottom(), b.Bottom())) ==> c
    ensures a.w > 0 && a.h > 0 && b.w > 0 && b.h > 0 ==> (c <==>
      && MaxI(a.Left(), b.Left()) < MinI(a.Right(), b.Right())
      && MaxI(a.Top(), b.Top()) < MinI(a.Bottom(), b.Bottom()))
  {
    a.Left() < b.Right() && b.Left() < a.Right() &&
    a.Top() < b.Bottom() && b.Top() < a.Bottom()
  }
}
