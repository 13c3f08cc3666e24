/**
 * The interactive canvas component: its state (the plane ranges shown, the
 * hover and press positions, whether the full-quality render is on the
 * canvas) and its event handlers and effects. Event handlers update the
 * state at once; the effects they schedule are separate methods.
 */
module FractalCanvasComponent {
  import opened Wrappers
  import opened EscapeTime
  import opened Viewport
  import opened Raster
  import opened FractalMath

  class FractalCanvas {
    /** Backing size of the canvas element, in pixels. */
    const width: nat
    const height: nat
    /** Size of the element on the page, which pointer offsets are measured in. */
    const actualWidth: real
    const actualHeight: real
    const colorFunc: (nat, real) -> Colour
    const fns: MathFns

    var xRange: Range
    var yRange: Range
    /** The plane point under the pointer, shown in the caption; None when cleared. */
    var mousePos: Option<Point>
    /** The plane point where the button went down, if it has. */
    var mouseClickPos: Option<Point>
    var isRendered: bool
    /** The canvas bitmap: four channels per pixel, row by row. */
    var canvas: seq<int>

    ghost predicate Valid()
      reads this
    {
      width > 0 && height > 0 && actualWidth > 0.0 && actualHeight > 0.0 &&
      |canvas| == 4 * width * height
    }

    /** The component as first mounted, once the element's page size is known. */
    constructor(width: nat, height: nat, xRangeInit: Range, yRangeInit: Range,
                colorFunc: (nat, real) -> Colour, fns: MathFns, actualWidth: real, actualHeight: real)
      requires width > 0 && height > 0 && actualWidth > 0.0 && actualHeight > 0.0
      ensures Valid()
      ensures this.width == width && this.height == height
      ensures this.actualWidth == actualWidth && this.actualHeight == actualHeight
      ensures this.colorFunc == colorFunc && this.fns == fns
      ensures xRange == xRangeInit && yRange == yRangeInit
      ensures mousePos == None && mouseClickPos == None && !isRendered
      ensures canvas == Blank(4 * width * height)
    {
      this.width := width;
      this.height := height;
      this.actualWidth := actualWidth;
      this.actualHeight := actualHeight;
      this.colorFunc := colorFunc;
      this.fns := fns;
      xRange := xRangeInit;
      yRange := yRangeInit;
      mousePos := None;
      mouseClickPos := None;
      isRendered := false;
      canvas := Blank(4 * width * height);
    }

    /** What a full-quality render of the current ranges draws. */
    function CurrentScene(): Scene
      reads this
    {
      SkipScene(width, height, xRange, yRange, colorFunc, fns)
    }

    /** Button down: remember the plane point; the view does not change. */
    method OnMouseDown(X: real, Y: real)
      requires Valid()
      modifies this
      ensures Valid()
      ensures mouseClickPos == Some(PointerPoint(old(xRange), old(yRange), X, Y, actualWidth, actualHeight))
      ensures xRange == old(xRange) && yRange == old(yRange)
      ensures mousePos == old(mousePos) && isRendered == old(isRendered) && canvas == old(canvas)
    {
      mouseClickPos := Some(PointerPoint(xRange, yRange, X, Y, actualWidth, actualHeight));
    }

    /**
     * Button up: each range becomes the press and release coordinates in
     * increasing order, and the render is marked stale. Without a press
     * the handler fails (ok is false) and nothing changes.
     */
    method OnMouseUp(X: real, Y: real) returns (ok: bool)
      requires Valid()
      modifies this
      ensures Valid()
      ensures ok <==> old(mouseClickPos).Some?
      ensures ok ==> xRange == SortedPair(old(mouseClickPos).value.x, PointerPoint(old(xRange), old(yRange), X, Y, actualWidth, actualHeight).x)
      ensures ok ==> yRange == SortedPair(old(mouseClickPos).value.y, PointerPoint(old(xRange), old(yRange), X, Y, actualWidth, actualHeight).y)
      ensures ok ==> xRange.lo <= xRange.hi && yRange.lo <= yRange.hi && !isRendered
      ensures !ok ==> xRange == old(xRange) && yRange == old(yRange) && isRendered == old(isRendered)
      ensures mouseClickPos == old(mouseClickPos) && mousePos == old(mousePos) && canvas == old(canvas)
    {
      var up := PointerPoint(xRange, yRange, X, Y, actualWidth, actualHeight);
      if mouseClickPos.None? {
        return false;
      }
      var down := mouseClickPos.value;
      if up.x < down.x {
        xRange := Range(up.x, down.x);
      } else {
        xRange := Range(down.x, up.x);
      }
      if up.y < down.y {
        yRange := Range(up.y, down.y);
      } else {
        yRange := Range(down.y, up.y);
      }
      isRendered := false;
      ok := true;
    }

    /** Pointer moves: the caption shows the plane point under it. */
    method OnMouseMove(X: real, Y: real)
      requires Valid()
      modifies this
      ensures Valid()
      ensures mousePos == Some(PointerPoint(old(xRange), old(yRange), X, Y, actualWidth, actualHeight))
      ensures xRange == old(xRange) && yRange == old(yRange) && mouseClickPos == old(mouseClickPos)
      ensures isRendered == old(isRendered) && canvas == old(canvas)
    {
      mousePos := Some(PointerPoint(xRange, yRange, X, Y, actualWidth, actualHeight));
    }

    /** Pointer leaves: the hover coordinates are cleared. */
    method OnMouseLeave()
      requires Valid()
      modifies this
      ensures Valid()
      ensures mousePos == None
      ensures xRange == old(xRange) && yRange == old(yRange) && mouseClickPos == old(mouseClickPos)
      ensures isRendered == old(isRendered) && canvas == old(canvas)
    {
      mousePos := None;
    }

    /**
     * The effect run when isRendered changes: while the render is stale the
     * canvas is reset, so the previous drawing does not show through.
     */
    method ClearStale()
      requires Valid()
      modifies this
      ensures Valid()
      ensures canvas == if old(isRendered) then old(canvas) else Blank(4 * width * height)
      ensures xRange == old(xRange) && yRange == old(yRange) && isRendered == old(isRendered)
      ensures mousePos == old(mousePos) && mouseClickPos == old(mouseClickPos)
    {
      if !isRendered {
        canvas := Blank(4 * width * height);
      }
    }

    /**
     * The "render" event listener: draws the full-quality fractal of the
     * current ranges only when it is not on the canvas yet, then marks it
     * rendered; a second event does nothing until the ranges change.
     */
    method OnRenderEvent()
      requires Valid()
      modifies this
      ensures Valid()
      ensures old(isRendered) ==> canvas == old(canvas)
      ensures !old(isRendered) ==> canvas == Picture(old(CurrentScene()), Blank(4 * width * height))
      ensures isRendered
      ensures xRange == old(xRange) && yRange == old(yRange)
      ensures mousePos == old(mousePos) && mouseClickPos == old(mouseClickPos)
    {
      if !isRendered {
        var image := DrawBurningShipFractal(width, height, xRange, yRange, colorFunc, fns);
        canvas := image[..];
        isRendered := true;
      }
    }
  }
}
