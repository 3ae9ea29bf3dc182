/** The crosshair's motion (UpdatePosition, Main.c:799-825): each joystick sample moves
    the crosshair by the stick's deflection from its resting position, scaled by the speed
    modifier, and the result is clamped to the playing field. */
module Crosshair {
  import opened CArith

  const BaseSpeed := 6           // CURSOR_BASE_SPEED
  const CrossSize := 5           // CROSSSIZE
  const MaxX := 127              // rightmost crosshair column
  const MaxY := 112 - CrossSize  // lowest crosshair row
  const Center := 64             // CENTER: the centre of the field on both axes

  /** A pair of coordinates: a crosshair position (the `jsDataType` the producer queues),
      a raw joystick reading, or the joystick's resting reading `origin`. */
  datatype Sample = Sample(x: int, y: int)

  /** The crosshair lies within the playing field. */
  predicate OnScreen(p: Sample)
  {
    0 <= p.x <= MaxX && 0 <= p.y <= MaxY
  }

  /** A pair of `uint16_t` readings. */
  predicate Reading(p: Sample)
  {
    0 <= p.x < TwoTo16 && 0 <= p.y < TwoTo16
  }

  /** The speed modifier's scale: `CURSOR_BASE_SPEED << speed` when the speed is raised,
      `CURSOR_BASE_SPEED >> -speed` otherwise; the speed modifier only takes -1, 0 and 1. */
  function Factor(speed: int): (f: int)
    requires -1 <= speed <= 1
    ensures speed == 1 ==> f == 2 * BaseSpeed
    ensures speed == 0 ==> f == BaseSpeed
    ensures speed == -1 ==> f == BaseSpeed / 2
  {
    if speed > 0 then BaseSpeed * 2 else if speed == 0 then BaseSpeed else BaseSpeed / 2
  }

  /** One axis's step, stored in an `int16_t`: the deflection times the scale divided,
      truncating, by the resting reading. */
  function Step(deflection: int, f: int, rest: int): (d: int)
    requires rest > 0
    ensures -0x8000 <= d < 0x8000
    ensures deflection == 0 ==> d == 0
  {
    Int16(CDiv(deflection * f, rest))
  }

  /** The steps of both axes; the vertical axis is inverted (pushing the stick up
      decreases y). */
  function Delta(raw: Sample, origin: Sample, speed: int): (d: Sample)
    requires origin.x > 0 && origin.y > 0 && -1 <= speed <= 1
    ensures -0x8000 <= d.x < 0x8000 && -0x8000 <= d.y < 0x8000
    ensures raw.x == origin.x ==> d.x == 0
    ensures raw.y == origin.y ==> d.y == 0
  {
    Sample(Step(raw.x - origin.x, Factor(speed), origin.x),
           Step(origin.y - raw.y, Factor(speed), origin.y))
  }

  /** A coordinate forced into [0, hi], upper bound first as the source tests it. */
  function Clamp(v: int, hi: int): (r: int)
    requires hi >= 0
    ensures 0 <= r <= hi
    ensures 0 <= v <= hi ==> r == v
    ensures v > hi ==> r == hi
    ensures v < 0 ==> r == 0
  {
    var w := if v > hi then hi else v;
    if w < 0 then 0 else w
  }

  /** The crosshair position after one sample: the `int16_t` sums clamped to the field. */
  function Moved(pos: Sample, raw: Sample, origin: Sample, speed: int): (r: Sample)
    requires origin.x > 0 && origin.y > 0 && -1 <= speed <= 1
    ensures OnScreen(r)
  {
    var d := Delta(raw, origin, speed);
    Sample(Clamp(Int16(pos.x + d.x), MaxX), Clamp(Int16(pos.y + d.y), MaxY))
  }

  /** A product of two non-negative factors is non-negative. */
  lemma ProductNonnegative(a: int, c: int)
    ensures a >= 0 && c >= 0 ==> a * c >= 0
  {
  }

  /** Cancelling a positive factor: b * x < b * y + b gives x <= y. */
  lemma {:induction false} BelowNextMultiple(b: int, x: int, y: int)
    requires b > 0 && b * x < b * y + b
    ensures x <= y
  {
    ProductNonnegative(b, x - y - 1);
    assert b * (x - y - 1) == b * x - b * y - b;
  }

  /** Cancelling a positive factor: b * x > b * y - b gives x >= y. */
  lemma {:induction false} AboveLastMultiple(b: int, x: int, y: int)
    requires b > 0 && b * x > b * y - b
    ensures x >= y
  {
    ProductNonnegative(b, y - x - 1);
    assert b * (y - x - 1) == b * y - b * x - b;
  }

  /** The scaled deflection stays within the scaled resting reading. */
  lemma {:induction false} ScaledWithin(deflection: int, f: int, rest: int)
    requires (f == 3 || f == 6 || f == 12) && -rest <= deflection <= rest
    ensures -(rest * f) <= deflection * f <= rest * f
  {
    if f == 3 {
    } else if f == 6 {
    } else {
    }
  }

  /** The truncated quotient of a dividend within [-b * f, b * f] lies within [-f, f], and
      has the dividend's sign. */
  lemma {:induction false} QuotientBounded(a: int, b: int, f: int)
    requires b > 0 && -(b * f) <= a <= b * f
    ensures -f <= CDiv(a, b) <= f
    ensures a >= 0 ==> CDiv(a, b) >= 0
    ensures a <= 0 ==> CDiv(a, b) <= 0
  {
    var q := CDiv(a, b);
    BelowNextMultiple(b, q, f);
    AboveLastMultiple(b, q, -f);
    if a >= 0 {
      AboveLastMultiple(b, q, 0);
    }
    if a <= 0 {
      BelowNextMultiple(b, q, 0);
    }
  }

  /** A deflection no larger than the resting reading yields a step of at most the scale,
      pointing the same way as the deflection. */
  lemma {:induction false} SmallStep(deflection: int, f: int, rest: int)
    requires rest > 0 && (f == 3 || f == 6 || f == 12) && -rest <= deflection <= rest
    ensures -f <= Step(deflection, f, rest) <= f
    ensures deflection >= 0 ==> Step(deflection, f, rest) >= 0
    ensures deflection <= 0 ==> Step(deflection, f, rest) <= 0
  {
    ScaledWithin(deflection, f, rest);
    QuotientBounded(deflection * f, rest, f);
  }

  /** The stick at rest leaves an on-screen crosshair where it is. */
  lemma AtRestStaysPut(pos: Sample, origin: Sample, speed: int)
    requires origin.x > 0 && origin.y > 0 && -1 <= speed <= 1
    requires OnScreen(pos)
    ensures Moved(pos, origin, origin, speed) == pos
  {
  }

  /** For readings within the stick's range (no further from rest than the resting reading
      itself), one sample moves an on-screen crosshair by at most the speed scale on each
      axis, right when the stick is pushed right and up when it is pushed up; it moves by
      exactly the step whenever that keeps it on the field. */
  lemma {:induction false} BoundedMove(pos: Sample, raw: Sample, origin: Sample, speed: int)
    requires origin.x > 0 && origin.y > 0 && -1 <= speed <= 1
    requires OnScreen(pos)
    requires 0 <= raw.x <= 2 * origin.x && 0 <= raw.y <= 2 * origin.y
    ensures var r := Moved(pos, raw, origin, speed);
            && -Factor(speed) <= r.x - pos.x <= Factor(speed)
            && -Factor(speed) <= r.y - pos.y <= Factor(speed)
            && (raw.x >= origin.x ==> r.x >= pos.x)
            && (raw.x <= origin.x ==> r.x <= pos.x)
            && (raw.y >= origin.y ==> r.y <= pos.y)
            && (raw.y <= origin.y ==> r.y >= pos.y)
    ensures var d := Delta(raw, origin, speed);
            OnScreen(Sample(pos.x + d.x, pos.y + d.y)) ==>
              Moved(pos, raw, origin, speed) == Sample(pos.x + d.x, pos.y + d.y)
  {
    SmallStep(raw.x - origin.x, Factor(speed), origin.x);
    SmallStep(origin.y - raw.y, Factor(speed), origin.y);
  }
}
