/**
 * The page script of the React site's static pages: canvases that keep
 * their plane ranges in two-element arrays the handlers overwrite in place,
 * render once when first scrolled into view, and skip pixels which never
 * escape.
 */
module ReactMain {
  import opened EscapeTime
  import opened Viewport
  import opened Raster

  const MaxIterations: nat := 255
  const EscapeThreshold: real := 4.0

  /** The evaluator: the iteration count and the squared modulus it stopped at. */
  method IterateUntilEscape(x0: real, y0: real) returns (numIterations: nat, modulusSq: real)
    ensures numIterations == EscapeCount(Point(x0, y0), EscapeThreshold, MaxIterations)
    ensures numIterations <= MaxIterations
    ensures modulusSq == ModulusSq(Orbit(numIterations, Point(x0, y0)))
    ensures numIterations < MaxIterations ==> modulusSq >= EscapeThreshold
  {
    numIterations, modulusSq := EscapeTime.IterateUntilEscape(x0, y0, EscapeThreshold, MaxIterations);
  }

  /**
   * The visibility test of the polling loop: a canvas whose bounding box
   * spans [top, bottom] is visible unless it lies wholly above the viewport
   * or wholly below its height.
   */
  predicate IsVisible(top: real, bottom: real, viewportHeight: real): (v: bool)
    ensures v <==> 0.0 <= bottom && top <= viewportHeight
  {
    !(bottom < 0.0 || top > viewportHeight)
  }

  predicate InSpan(y: real, lo: real, hi: real) {
    lo <= y <= hi
  }

  /** For a proper box and viewport, visible means the box and [0, viewportHeight] overlap. */
  lemma IsVisibleIffOverlap(top: real, bottom: real, viewportHeight: real)
    requires top <= bottom && 0.0 <= viewportHeight
    ensures IsVisible(top, bottom, viewportHeight) <==>
      exists y :: InSpan(y, top, bottom) && InSpan(y, 0.0, viewportHeight)
  {
    if IsVisible(top, bottom, viewportHeight) {
      var y := if top < 0.0 then 0.0 else top;
      assert InSpan(y, top, bottom) && InSpan(y, 0.0, viewportHeight);
    }
  }

  /**
   * The polling pass over the page's canvases, given their boxes as
   * (top, bottom): the render event goes to exactly the visible ones, in
   * page order.
   */
  method RenderVisibleFractalCanvases(boxes: seq<(real, real)>, viewportHeight: real)
    returns (dispatched: seq<nat>)
    ensures forall k: nat :: k in dispatched <==> k < |boxes| && IsVisible(boxes[k].0, boxes[k].1, viewportHeight)
    ensures forall a, b :: 0 <= a < b < |dispatched| ==> dispatched[a] < dispatched[b]
  {
    dispatched := [];
    for k := 0 to |boxes|
      invariant forall m: nat :: m in dispatched <==> m < k && IsVisible(boxes[m].0, boxes[m].1, viewportHeight)
      invariant forall a, b :: 0 <= a < b < |dispatched| ==> dispatched[a] < dispatched[b]
      invariant forall a :: 0 <= a < |dispatched| ==> dispatched[a] < k
    {
      var (top, bottom) := boxes[k];
      if bottom < 0.0 || top > viewportHeight {
        // not visible
      } else {
        dispatched := dispatched + [k];
      }
    }
  }

  class BurningShipFractalCanvas {
    const canvasWidth: nat
    const canvasHeight: nat
    const actualWidth: real
    const actualHeight: real
    /** The two-element range arrays, shared with whoever constructed the canvas. */
    const xRange: array<real>
    const yRange: array<real>
    const colorFunc: (nat, real) -> Colour

    var hasRendered: bool
    /** Renders started by the "render" event. */
    ghost var eventRenders: nat
    var canvas: seq<int>

    ghost predicate Valid()
      reads this, xRange, yRange
    {
      canvasWidth > 0 && canvasHeight > 0 && actualWidth > 0.0 && actualHeight > 0.0 &&
      xRange.Length == 2 && yRange.Length == 2 && xRange != yRange &&
      |canvas| == 4 * canvasWidth * canvasHeight &&
      eventRenders == if hasRendered then 1 else 0
    }

    /** What render draws from the ranges as they are now. */
    function CurrentScene(): Scene
      reads this, xRange, yRange
      requires xRange.Length == 2 && yRange.Length == 2
    {
      Scene(canvasWidth, canvasHeight, Range(xRange[0], xRange[1]), Range(yRange[0], yRange[1]),
            EscapeThreshold, MaxIterations, colorFunc, false)
    }

    constructor(canvasWidth: nat, canvasHeight: nat, actualWidth: real, actualHeight: real,
                xRange: array<real>, yRange: array<real>, colorFunc: (nat, real) -> Colour)
      requires canvasWidth > 0 && canvasHeight > 0 && actualWidth > 0.0 && actualHeight > 0.0
      requires xRange.Length == 2 && yRange.Length == 2 && xRange != yRange
      ensures Valid()
      ensures this.canvasWidth == canvasWidth && this.canvasHeight == canvasHeight
      ensures this.actualWidth == actualWidth && this.actualHeight == actualHeight
      ensures this.xRange == xRange && this.yRange == yRange && this.colorFunc == colorFunc
      ensures !hasRendered && eventRenders == 0
      ensures canvas == Blank(4 * canvasWidth * canvasHeight)
    {
      this.canvasWidth := canvasWidth;
      this.canvasHeight := canvasHeight;
      this.actualWidth := actualWidth;
      this.actualHeight := actualHeight;
      this.xRange := xRange;
      this.yRange := yRange;
      this.colorFunc := colorFunc;
      hasRendered := false;
      eventRenders := 0;
      canvas := Blank(4 * canvasWidth * canvasHeight);
    }

    /** Button down: index 0 of each range becomes the pointer's plane coordinate. */
    method OnMouseDown(offsetX: real, offsetY: real)
      requires Valid()
      modifies xRange, yRange
      ensures Valid()
      ensures xRange[..] == [Lerp(old(xRange[0]), old(xRange[1]), offsetX, actualWidth), old(xRange[1])]
      ensures yRange[..] == [Lerp(old(yRange[0]), old(yRange[1]), offsetY, actualHeight), old(yRange[1])]
    {
      var x0 := Lerp(xRange[0], xRange[1], offsetX, actualWidth);
      var y0 := Lerp(yRange[0], yRange[1], offsetY, actualHeight);
      xRange[0] := x0;
      yRange[0] := y0;
    }

    /**
     * Button up: index 1 of each range becomes the pointer's coordinate,
     * interpolated across the ranges as they are now (index 0 already
     * moved by the press), and the canvas is rendered.
     */
    method OnMouseUp(offsetX: real, offsetY: real)
      requires Valid()
      modifies this, xRange, yRange
      ensures Valid()
      ensures xRange[..] == [old(xRange[0]), Lerp(old(xRange[0]), old(xRange[1]), offsetX, actualWidth)]
      ensures yRange[..] == [old(yRange[0]), Lerp(old(yRange[0]), old(yRange[1]), offsetY, actualHeight)]
      ensures canvas == Picture(CurrentScene(), Blank(4 * canvasWidth * canvasHeight))
      ensures hasRendered == old(hasRendered)
    {
      var x1 := Lerp(xRange[0], xRange[1], offsetX, actualWidth);
      var y1 := Lerp(yRange[0], yRange[1], offsetY, actualHeight);
      xRange[1] := x1;
      yRange[1] := y1;
      Render();
    }

    /**
     * A press at (downX, downY) followed by a release at (upX, upY): the
     * ranges end as PressThenRelease of the view that was shown, and the
     * canvas holds the picture of the new view.
     */
    method Drag(downX: real, downY: real, upX: real, upY: real)
      requires Valid()
      modifies this, xRange, yRange
      ensures Valid()
      ensures Range(xRange[0], xRange[1]) ==
        PressThenRelease(Range(old(xRange[0]), old(xRange[1])), downX, upX, actualWidth)
      ensures Range(yRange[0], yRange[1]) ==
        PressThenRelease(Range(old(yRange[0]), old(yRange[1])), downY, upY, actualHeight)
      ensures canvas == Picture(CurrentScene(), Blank(4 * canvasWidth * canvasHeight))
      ensures hasRendered == old(hasRendered) && eventRenders == old(eventRenders)
    {
      OnMouseDown(downX, downY);
      OnMouseUp(upX, upY);
    }

    /**
     * The "render" event: renders only the first time; the flag is set
     * before rendering, so at most one render ever comes from the event.
     */
    method OnRenderEvent()
      requires Valid()
      modifies this
      ensures Valid()
      ensures hasRendered && eventRenders == 1
      ensures old(hasRendered) ==> canvas == old(canvas)
      ensures !old(hasRendered) ==> canvas == Picture(CurrentScene(), Blank(4 * canvasWidth * canvasHeight))
    {
      if !hasRendered {
        hasRendered := true;
        eventRenders := eventRenders + 1;
        Render();
      }
    }

    /** Renders the current ranges into fresh image data and puts it on the canvas. */
    method Render()
      requires Valid()
      modifies this
      ensures Valid()
      ensures canvas == Picture(CurrentScene(), Blank(4 * canvasWidth * canvasHeight))
      ensures hasRendered == old(hasRendered) && eventRenders == old(eventRenders)
    {
      var image := new int[4 * canvasWidth * canvasHeight](_ => 0);
      assert image[..] == Blank(4 * canvasWidth * canvasHeight);
      Raster.Render(image, CurrentScene());
      canvas := image[..];
    }
  }
}
