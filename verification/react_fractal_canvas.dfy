/**
 * The earlier canvas component: an evaluator that returns the squared
 * modulus against threshold 16, a renderer that skips pixels which never
 * escape, and a component whose button-down moves the view's low corner to
 * the pointer and redraws.
 */
module ReactFractalCanvas {
  import opened Wrappers
  import opened EscapeTime
  import opened Viewport
  import opened Raster

  const MaxIterations: nat := 255
  const EscapeThreshold: real := 16.0

  /**
   * The evaluator: the iteration count of (x0, y0) and the squared modulus
   * (not its square root) of the state it stopped in.
   */
  method IterateUntilEscape(x0: real, y0: real) returns (numIterations: nat, escapeDistSq: real)
    ensures numIterations == EscapeCount(Point(x0, y0), EscapeThreshold, MaxIterations)
    ensures numIterations <= MaxIterations
    ensures escapeDistSq == ModulusSq(Orbit(numIterations, Point(x0, y0)))
    ensures numIterations < MaxIterations ==> escapeDistSq >= EscapeThreshold
  {
    numIterations, escapeDistSq := EscapeTime.IterateUntilEscape(x0, y0, EscapeThreshold, MaxIterations);
  }

  /** What drawCanvas renders: threshold 16, cap 255, skip policy, colorFunc(count, squared modulus). */
  function CanvasScene(width: nat, height: nat, xRange: Range, yRange: Range,
                       colorFunc: (nat, real) -> Colour): (s: Scene)
    ensures s.width == width && s.height == height && s.xRange == xRange && s.yRange == yRange
    ensures s.threshold == EscapeThreshold && s.maxIterations == MaxIterations && !s.paintInside
    ensures s.colour == colorFunc
  {
    Scene(width, height, xRange, yRange, EscapeThreshold, MaxIterations, colorFunc, false)
  }

  /** The renderer: zeroed image data filled with the picture of the scene. */
  method DrawCanvas(width: nat, height: nat, xRange: Range, yRange: Range, colorFunc: (nat, real) -> Colour)
    returns (image: array<int>)
    requires width > 0 && height > 0
    ensures fresh(image)
    ensures image[..] == Picture(CanvasScene(width, height, xRange, yRange, colorFunc), Blank(4 * width * height))
  {
    var s := CanvasScene(width, height, xRange, yRange, colorFunc);
    image := new int[4 * width * height](_ => 0);
    assert image[..] == Blank(4 * width * height);
    Render(image, s);
  }

  /**
   * drawCanvas leaves a pixel that reaches the cap transparent and gives an
   * escaped one colorFunc's channels for its count and squared modulus.
   */
  lemma DrawnPixel(width: nat, height: nat, xRange: Range, yRange: Range,
                   colorFunc: (nat, real) -> Colour, i: nat, j: nat, p: nat)
    requires width > 0 && height > 0 && i < height && j < width && p < 4
    ensures PixelOffset(width, i, j) + p < 4 * width * height
    ensures var s := CanvasScene(width, height, xRange, yRange, colorFunc);
      var c := PixelPoint(s, i, j);
      var n := EscapeCount(c, EscapeThreshold, MaxIterations);
      Picture(s, Blank(4 * width * height))[PixelOffset(width, i, j) + p] ==
        if n == MaxIterations then 0 else ClampToByte(ChannelValue(colorFunc(n, ModulusSq(Orbit(n, c))), p))
  {
    var s := CanvasScene(width, height, xRange, yRange, colorFunc);
    PictureAtPixel(s, Blank(4 * width * height), i, j, p);
  }

  class FractalCanvas {
    const width: nat
    const height: nat
    const actualWidth: real
    const actualHeight: real
    const colorFunc: (nat, real) -> Colour

    var xRange: Range
    var yRange: Range
    /** The plane point under the pointer, shown in the caption. */
    var mousePos: Option<Point>
    var canvas: seq<int>

    ghost predicate Valid()
      reads this
    {
      width > 0 && height > 0 && actualWidth > 0.0 && actualHeight > 0.0 &&
      |canvas| == 4 * width * height
    }

    function CurrentScene(): Scene
      reads this
    {
      CanvasScene(width, height, xRange, yRange, colorFunc)
    }

    /** The component as mounted: the mount effect has drawn the initial view. */
    constructor(width: nat, height: nat, xRangeInit: Range, yRangeInit: Range,
                colorFunc: (nat, real) -> Colour, actualWidth: real, actualHeight: real)
      requires width > 0 && height > 0 && actualWidth > 0.0 && actualHeight > 0.0
      ensures Valid()
      ensures this.width == width && this.height == height && this.colorFunc == colorFunc
      ensures this.actualWidth == actualWidth && this.actualHeight == actualHeight
      ensures xRange == xRangeInit && yRange == yRangeInit && mousePos == None
      ensures canvas == Picture(CurrentScene(), Blank(4 * width * height))
    {
      this.width := width;
      this.height := height;
      this.actualWidth := actualWidth;
      this.actualHeight := actualHeight;
      this.colorFunc := colorFunc;
      xRange := xRangeInit;
      yRange := yRangeInit;
      mousePos := None;
      var image := DrawCanvas(width, height, xRangeInit, yRangeInit, colorFunc);
      canvas := image[..];
    }

    /**
     * Button down: the low end of each range moves to the pointer's plane
     * coordinate, the high end stays, and the range effect redraws.
     */
    method OnMouseDown(clientX: real, clientY: real)
      requires Valid()
      modifies this
      ensures Valid()
      ensures xRange == Range(PointerPoint(old(xRange), old(yRange), clientX, clientY, actualWidth, actualHeight).x, old(xRange.hi))
      ensures yRange == Range(PointerPoint(old(xRange), old(yRange), clientX, clientY, actualWidth, actualHeight).y, old(yRange.hi))
      ensures canvas == Picture(CurrentScene(), Blank(4 * width * height))
      ensures mousePos == old(mousePos)
    {
      var p := PointerPoint(xRange, yRange, clientX, clientY, actualWidth, actualHeight);
      xRange := Range(p.x, xRange.hi);
      yRange := Range(p.y, yRange.hi);
      var image := DrawCanvas(width, height, xRange, yRange, colorFunc);
      canvas := image[..];
    }

    /** Pointer moves: the caption shows the plane point under it. */
    method OnMouseMove(clientX: real, clientY: real)
      requires Valid()
      modifies this
      ensures Valid()
      ensures mousePos == Some(PointerPoint(old(xRange), old(yRange), clientX, clientY, actualWidth, actualHeight))
      ensures xRange == old(xRange) && yRange == old(yRange) && canvas == old(canvas)
    {
      mousePos := Some(PointerPoint(xRange, yRange, clientX, clientY, actualWidth, actualHeight));
    }
  }
}
