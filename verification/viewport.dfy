/**
 * The two linear maps between the screen and the plane of the fractal: the
 * renderer's column/row-to-plane map, and the mouse handlers' interpolation
 * of a pointer offset. Also the normalisation of a drag into a range.
 */
module Viewport {
  import opened EscapeTime

  /** A closed interval [lo, hi] of one plane axis, as the two-element ranges hold it. */
  datatype Range = Range(lo: real, hi: real)

  /**
   * The mouse handlers' map from an offset on the canvas to a plane
   * coordinate: lo * (1 - t) + hi * t with t = offset / size.
   */
  function Lerp(lo: real, hi: real, offset: real, size: real): (v: real)
    requires size > 0.0
    ensures offset == 0.0 ==> v == lo
    ensures offset == size ==> v == hi
  {
    lo * (1.0 - offset / size) + hi * (offset / size)
  }

  lemma MulNonNegative(x: real, y: real)
    requires x >= 0.0 && y >= 0.0
    ensures x * y >= 0.0
  {
  }

  /** Multiplying by a non-negative factor keeps the order. */
  lemma MulMonotone(c: real, t1: real, t2: real)
    requires c >= 0.0 && t1 <= t2
    ensures c * t1 <= c * t2
  {
    MulNonNegative(c, t2 - t1);
    assert c * t2 - c * t1 == c * (t2 - t1);
  }

  /** Dividing by a positive number keeps the order. */
  lemma DivMonotone(a1: real, a2: real, b: real)
    requires b > 0.0 && a1 <= a2
    ensures a1 / b <= a2 / b
  {
    var q1, q2 := a1 / b, a2 / b;
    assert q1 * b == a1 && q2 * b == a2;
    assert (q2 - q1) * b == a2 - a1;
    if q2 < q1 {
      MulNonNegative(q1 - q2, b);
    }
  }

  /** A fraction offset / size of an offset inside the canvas lies in [0, 1]. */
  lemma FractionBetween(offset: real, size: real)
    requires size > 0.0 && 0.0 <= offset <= size
    ensures 0.0 <= offset / size <= 1.0
  {
    DivMonotone(0.0, offset, size);
    DivMonotone(offset, size, size);
  }

  /** The interpolation moves from lo towards hi by the fraction offset / size. */
  lemma LerpShift(lo: real, hi: real, offset: real, size: real)
    requires size > 0.0
    ensures Lerp(lo, hi, offset, size) == lo + (hi - lo) * (offset / size)
  {
    var t := offset / size;
    assert lo * (1.0 - t) == lo - lo * t;
    assert hi * t - lo * t == (hi - lo) * t;
  }

  /** An offset inside the canvas lands inside the range. */
  lemma LerpBetween(lo: real, hi: real, offset: real, size: real)
    requires size > 0.0 && lo <= hi && 0.0 <= offset <= size
    ensures lo <= Lerp(lo, hi, offset, size) <= hi
  {
    LerpShift(lo, hi, offset, size);
    var t := offset / size;
    FractionBetween(offset, size);
    MulMonotone(hi - lo, 0.0, t);
    MulMonotone(hi - lo, t, 1.0);
  }

  /** Moving the pointer right never moves the plane point left. */
  lemma LerpMonotone(lo: real, hi: real, offset1: real, offset2: real, size: real)
    requires size > 0.0 && lo <= hi && offset1 <= offset2
    ensures Lerp(lo, hi, offset1, size) <= Lerp(lo, hi, offset2, size)
  {
    LerpShift(lo, hi, offset1, size);
    LerpShift(lo, hi, offset2, size);
    DivMonotone(offset1, offset2, size);
    MulMonotone(hi - lo, offset1 / size, offset2 / size);
  }

  /**
   * The plane point under a pointer at offset (X, Y) on an element of the
   * given size showing the two ranges: each axis interpolated by Lerp.
   */
  function PointerPoint(xRange: Range, yRange: Range, X: real, Y: real, width: real, height: real): (p: Point)
    requires width > 0.0 && height > 0.0
    ensures X == 0.0 ==> p.x == xRange.lo
    ensures X == width ==> p.x == xRange.hi
    ensures Y == 0.0 ==> p.y == yRange.lo
    ensures Y == height ==> p.y == yRange.hi
  {
    Point(Lerp(xRange.lo, xRange.hi, X, width), Lerp(yRange.lo, yRange.hi, Y, height))
  }

  /** A pointer over the element maps into the view. */
  lemma PointerPointWithinView(xRange: Range, yRange: Range, X: real, Y: real, width: real, height: real)
    requires width > 0.0 && height > 0.0
    requires xRange.lo <= xRange.hi && yRange.lo <= yRange.hi
    requires 0.0 <= X <= width && 0.0 <= Y <= height
    ensures xRange.lo <= PointerPoint(xRange, yRange, X, Y, width, height).x <= xRange.hi
    ensures yRange.lo <= PointerPoint(xRange, yRange, X, Y, width, height).y <= yRange.hi
  {
    LerpBetween(xRange.lo, xRange.hi, X, width);
    LerpBetween(yRange.lo, yRange.hi, Y, height);
  }

  /**
   * The renderer's map from column (or row) k of n to a plane coordinate:
   * lo + k * (hi - lo) / n, as the pixel loops compute it.
   */
  function PlaneCoord(lo: real, hi: real, k: nat, n: nat): (v: real)
    requires n > 0
    ensures k == 0 ==> v == lo
  {
    lo + (k as real) * (hi - lo) / (n as real)
  }

  /** Two products with the same non-zero factor are equal only if the other factors are. */
  lemma CancelFactor(a: real, b: real, f: real)
    requires f != 0.0 && a * f == b * f
    ensures a == b
  {
    assert (a - b) * f == 0.0;
  }

  /** (a * d) / b == d * (a / b) for positive b. */
  lemma DivOfProduct(a: real, d: real, b: real)
    requires b > 0.0
    ensures a * d / b == d * (a / b)
  {
    var q := a / b;
    assert q * b == a;
    assert (a * d / b) * b == a * d;
    assert (d * q) * b == d * (q * b);
    CancelFactor(a * d / b, d * q, b);
  }

  /** The two maps' formulas agree for any offset a and positive size b. */
  lemma FormulasAgree(lo: real, hi: real, a: real, b: real)
    requires b > 0.0
    ensures lo + a * (hi - lo) / b == Lerp(lo, hi, a, b)
  {
    LerpShift(lo, hi, a, b);
    DivOfProduct(a, hi - lo, b);
  }

  /**
   * The renderer's map and the mouse handlers' map agree: the pixel in
   * column k is the plane point under a pointer at offset k when the offset
   * is measured against the same size.
   */
  lemma PlaneCoordIsLerp(lo: real, hi: real, k: nat, n: nat)
    requires n > 0
    ensures PlaneCoord(lo, hi, k, n) == Lerp(lo, hi, k as real, n as real)
  {
    var a, b := k as real, n as real;
    assert PlaneCoord(lo, hi, k, n) == lo + a * (hi - lo) / b;
    FormulasAgree(lo, hi, a, b);
  }

  /** The last column boundary maps to hi: the columns span the whole range. */
  lemma PlaneCoordAtEnd(lo: real, hi: real, n: nat)
    requires n > 0
    ensures PlaneCoord(lo, hi, n, n) == hi
  {
    PlaneCoordIsLerp(lo, hi, n, n);
  }

  /** Columns to the right map to larger coordinates when lo <= hi. */
  lemma PlaneCoordMonotone(lo: real, hi: real, k1: nat, k2: nat, n: nat)
    requires n > 0 && lo <= hi && k1 <= k2
    ensures PlaneCoord(lo, hi, k1, n) <= PlaneCoord(lo, hi, k2, n)
  {
    PlaneCoordIsLerp(lo, hi, k1, n);
    PlaneCoordIsLerp(lo, hi, k2, n);
    LerpMonotone(lo, hi, k1 as real, k2 as real, n as real);
  }

  /** Every column of the canvas maps into the range. */
  lemma PlaneCoordBetween(lo: real, hi: real, k: nat, n: nat)
    requires n > 0 && lo <= hi && k <= n
    ensures lo <= PlaneCoord(lo, hi, k, n) <= hi
  {
    PlaneCoordIsLerp(lo, hi, k, n);
    LerpBetween(lo, hi, k as real, n as real);
  }

  /**
   * The mouse-up normalisation: the press and release coordinates of one
   * axis, put in increasing order.
   */
  function SortedPair(down: real, up: real): (r: Range)
    ensures r.lo <= r.hi
    ensures (r.lo == down && r.hi == up) || (r.lo == up && r.hi == down)
  {
    if up < down then Range(up, down) else Range(down, up)
  }

  /**
   * A drag from offset downOffset to offset upOffset over a canvas of the
   * given size, both read against the view shown while dragging: the
   * selected interval runs from the plane point under the press to the one
   * under the release.
   */
  function DragRange(view: Range, downOffset: real, upOffset: real, size: real): (r: Range)
    requires size > 0.0
    ensures downOffset == 0.0 && upOffset == size ==> r == view
  {
    Range(Lerp(view.lo, view.hi, downOffset, size), Lerp(view.lo, view.hi, upOffset, size))
  }

  /** A left-to-right drag inside the canvas selects a sub-interval of the view. */
  lemma DragRangeWithinView(view: Range, downOffset: real, upOffset: real, size: real)
    requires size > 0.0 && view.lo <= view.hi && 0.0 <= downOffset <= upOffset <= size
    ensures var r := DragRange(view, downOffset, upOffset, size);
      view.lo <= r.lo <= r.hi <= view.hi
  {
    LerpBetween(view.lo, view.hi, downOffset, size);
    LerpBetween(view.lo, view.hi, upOffset, size);
    LerpMonotone(view.lo, view.hi, downOffset, upOffset, size);
  }

  /**
   * Sorting the press and release points of a drag read against one view
   * gives the interval the drag swept: for a left-to-right drag it is
   * DragRange itself.
   */
  lemma SortedDragIsDragRange(view: Range, downOffset: real, upOffset: real, size: real)
    requires size > 0.0 && view.lo <= view.hi && downOffset <= upOffset
    ensures SortedPair(Lerp(view.lo, view.hi, downOffset, size), Lerp(view.lo, view.hi, upOffset, size))
         == DragRange(view, downOffset, upOffset, size)
  {
    LerpMonotone(view.lo, view.hi, downOffset, upOffset, size);
  }

  /**
   * The class-based canvases' press-and-release as their handlers write it:
   * the press overwrites the low ends of the ranges in place, and the
   * release is then interpolated against the half-updated range rather than
   * the view that was on screen.
   */
  function PressThenRelease(view: Range, downOffset: real, upOffset: real, size: real): (r: Range)
    requires size > 0.0
    ensures r.lo == Lerp(view.lo, view.hi, downOffset, size)
  {
    var lo := Lerp(view.lo, view.hi, downOffset, size);
    Range(lo, Lerp(lo, view.hi, upOffset, size))
  }

  /**
   * Dragging from the middle to three quarters of a 100-pixel canvas showing
   * [0, 100] selects [50, 87.5] as written, not the [50, 75] that was under
   * the pointer.
   */
  lemma PressThenReleaseDrifts()
    ensures PressThenRelease(Range(0.0, 100.0), 50.0, 75.0, 100.0) == Range(50.0, 87.5)
    ensures DragRange(Range(0.0, 100.0), 50.0, 75.0, 100.0) == Range(50.0, 75.0)
  {
    assert Lerp(0.0, 100.0, 50.0, 100.0) == 50.0;
    assert Lerp(50.0, 100.0, 75.0, 100.0) == 87.5;
    assert Lerp(0.0, 100.0, 75.0, 100.0) == 75.0;
  }

  lemma ProductIsZero(x: real, y: real)
    ensures x * y == 0.0 <==> x == 0.0 || y == 0.0
  {
    if x != 0.0 && x * y == 0.0 {
      assert y == (x * y) / x;
    }
  }

  /**
   * The release end as written agrees with the intended one exactly when the
   * press did not move the low end or the release is at the far edge.
   */
  lemma PressThenReleaseAgreesOnlyWhen(view: Range, downOffset: real, upOffset: real, size: real)
    requires size > 0.0
    ensures PressThenRelease(view, downOffset, upOffset, size).hi == DragRange(view, downOffset, upOffset, size).hi
        <==> Lerp(view.lo, view.hi, downOffset, size) == view.lo || upOffset == size
  {
    var lo := Lerp(view.lo, view.hi, downOffset, size);
    var t := upOffset / size;
    LerpShift(lo, view.hi, upOffset, size);
    LerpShift(view.lo, view.hi, upOffset, size);
    assert Lerp(lo, view.hi, upOffset, size) - Lerp(view.lo, view.hi, upOffset, size)
        == (lo - view.lo) * (1.0 - t);
    ProductIsZero(lo - view.lo, 1.0 - t);
    assert t * size == upOffset;
  }
}
