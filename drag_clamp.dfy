/**
 * The canvas prototype's `object:moving` handler: after each move, the object's
 * bounding rectangle is read once and its `left` and `top` are shifted back by
 * whatever part of that rectangle lies outside the canvas.
 *
 * The lemmas about where the box ends up read `edge - Correction(...)` as the new edge of
 * the bounding rectangle. That is, they take the rectangle to move exactly as far as
 * `left` and `top` do, which holds for Fabric's axis-aligned bounding box of an object
 * whose size, angle and origin are unchanged by the move.
 */
module DragClamp {

  /** The object's axis-aligned bounding rectangle in canvas coordinates. */
  datatype BoundingRect = BoundingRect(left: real, top: real, width: real, height: real)

  /**
   * The total amount subtracted from one coordinate: the low overflow (when the low edge
   * is negative) plus the high overflow (when the high edge is past the limit), both
   * measured on the rectangle as it was read before either shift.
   */
  function Correction(low: real, size: real, limit: real): real {
    (if low < 0.0 then low else 0.0) + (if low + size > limit then low + size - limit else 0.0)
  }

  /** A negative low edge that is the only overflow is shifted to exactly 0. */
  lemma LowOverflowLandsAtZero(low: real, size: real, limit: real)
    requires low < 0.0 && low + size <= limit
    ensures low - Correction(low, size, limit) == 0.0
  {
  }

  /** A high edge past the limit that is the only overflow is shifted back onto the limit. */
  lemma HighOverflowLandsAtLimit(low: real, size: real, limit: real)
    requires low >= 0.0 && low + size > limit
    ensures Correction(low, size, limit) == low + size - limit
    ensures low - Correction(low, size, limit) + size == limit
  {
  }

  /** A rectangle already inside the canvas is left where it is. */
  lemma InsideIsUnchanged(low: real, size: real, limit: real)
    requires 0.0 <= low && low + size <= limit
    ensures Correction(low, size, limit) == 0.0
  {
  }

  /**
   * A rectangle no larger than the canvas gets at most one correction per axis and ends
   * inside [0, limit]; the handler then has nothing more to do on that axis.
   */
  lemma FittingRectEndsInside(low: real, size: real, limit: real)
    requires 0.0 <= size <= limit
    ensures !(low < 0.0 && low + size > limit)
    ensures var moved := low - Correction(low, size, limit);
      0.0 <= moved && moved + size <= limit && Correction(moved, size, limit) == 0.0
  {
  }

  /**
   * A rectangle overflowing both sides is shifted by the sum of both overflows, both taken
   * from the stale rectangle, so its high edge still ends past the limit.
   */
  lemma WideRectShiftsBySum(low: real, size: real, limit: real)
    requires low < 0.0 && low + size > limit
    ensures Correction(low, size, limit) == low + (low + size - limit)
    ensures low - Correction(low, size, limit) + size == limit - low > limit
  {
  }

  /** The moving object; only the two coordinates the handler changes are modelled. */
  class MovingObject {
    var left: real
    var top: real

    constructor (left0: real, top0: real)
      ensures left == left0 && top == top0
    {
      left := left0;
      top := top0;
    }

    /** The handler, given the bounding rectangle `getBoundingRect` returns before any shift. */
    method OnMoving(bounding: BoundingRect, canvasWidth: real, canvasHeight: real)
      modifies this
      ensures left == old(left) - Correction(bounding.left, bounding.width, canvasWidth)
      ensures top == old(top) - Correction(bounding.top, bounding.height, canvasHeight)
    {
      if bounding.left < 0.0 {
        left := left - bounding.left;
      }
      if bounding.top < 0.0 {
        top := top - bounding.top;
      }
      if bounding.left + bounding.width > canvasWidth {
        left := left - (bounding.left + bounding.width - canvasWidth);
      }
      if bounding.top + bounding.height > canvasHeight {
        top := top - (bounding.top + bounding.height - canvasHeight);
      }
    }
  }
}
