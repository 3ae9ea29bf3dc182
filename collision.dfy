/** The collision test of CheckBlockIntersection (Main.c:400-406): does the crosshair's
    square box, its position plus or minus the crosshair size, overlap a cell's rectangle
    on both axes? */
module Collision {

  const BlockWidth := 18    // block_width, in pixels
  const BlockHeight := 18   // block_height, in pixels

  predicate InSpan(p: int, lo: int, hi: int)
  {
    lo <= p <= hi
  }

  /** The closed intervals [lo1, hi1] and [lo2, hi2] have a point in common. */
  ghost predicate Meet(lo1: int, hi1: int, lo2: int, hi2: int)
  {
    exists p :: InSpan(p, lo1, hi1) && InSpan(p, lo2, hi2)
  }

  /** The test exactly as the source writes it, for a crosshair at (cx, cy) of the given
      size and a cell whose top-left pixel is (px, py). */
  predicate Hits(cx: int, cy: int, size: int, px: int, py: int): (hit: bool)
    ensures hit ==> InSpan(cx, px - size, px + BlockWidth + size)
    ensures hit ==> InSpan(cy, py - size, py + BlockHeight + size)
  {
    && cx + size >= px && cx - size <= px + BlockWidth
    && cy + size >= py && cy - size <= py + BlockHeight
  }

  /** Two closed, non-empty intervals meet exactly when each starts no later than the
      other ends. */
  lemma {:induction false} MeetIffEndsCross(lo1: int, hi1: int, lo2: int, hi2: int)
    requires lo1 <= hi1 && lo2 <= hi2
    ensures Meet(lo1, hi1, lo2, hi2) <==> hi1 >= lo2 && lo1 <= hi2
  {
    if hi1 >= lo2 && lo1 <= hi2 {
      var p := if lo1 < lo2 then lo2 else lo1;
      assert InSpan(p, lo1, hi1) && InSpan(p, lo2, hi2);
    }
  }

  /** The source's four comparisons say exactly that the crosshair box and the cell's
      rectangle meet on both axes. */
  lemma HitsIffBoxesOverlap(cx: int, cy: int, size: int, px: int, py: int)
    requires size >= 0
    ensures Hits(cx, cy, size, px, py) <==>
              Meet(cx - size, cx + size, px, px + BlockWidth) &&
              Meet(cy - size, cy + size, py, py + BlockHeight)
  {
    MeetIffEndsCross(cx - size, cx + size, px, px + BlockWidth);
    MeetIffEndsCross(cy - size, cy + size, py, py + BlockHeight);
  }
}
