/**
 * The module-level renderer of the component library: the escape-time
 * evaluator with escape radius 2 and cap 255, the smooth count mu, and the
 * renderer that skips pixels which never escape.
 */
module FractalMath {
  import opened EscapeTime
  import opened Viewport
  import opened Raster

  const MaxIterations: nat := 255
  const EscapeRadius: real := 2.0
  /** The threshold on x^2 + y^2 is the square of the escape radius. */
  const EscapeThreshold: real := EscapeRadius * EscapeRadius

  /**
   * The evaluator: the iteration count of (x0, y0) and the distance from the
   * origin of the state it stopped in.
   */
  method IterateUntilEscape(x0: real, y0: real, fns: MathFns) returns (numIterations: nat, escapeDistance: real)
    ensures numIterations == EscapeCount(Point(x0, y0), EscapeThreshold, MaxIterations)
    ensures numIterations <= MaxIterations
    ensures escapeDistance == fns.sqrt(ModulusSq(Orbit(numIterations, Point(x0, y0))))
    ensures IsSqrt(fns.sqrt) && numIterations < MaxIterations ==> escapeDistance >= EscapeRadius
  {
    var modulusSq;
    numIterations, modulusSq := EscapeTime.IterateUntilEscape(x0, y0, EscapeThreshold, MaxIterations);
    escapeDistance := fns.sqrt(modulusSq);
    if IsSqrt(fns.sqrt) && numIterations < MaxIterations {
      RootOfAtLeastFour(escapeDistance);
    }
  }

  /**
   * For an escaped point the logarithm inside mu is taken of a positive
   * number: the distance is at least 2, so its natural logarithm is positive
   * (the reason log base 2 pairs with escape radius 2).
   */
  lemma EscapedMuIsDefined(c: Point, fns: MathFns)
    requires IsSqrt(fns.sqrt) && PositiveAboveOne(fns.ln)
    requires EscapeCount(c, EscapeThreshold, MaxIterations) < MaxIterations
    ensures var n := EscapeCount(c, EscapeThreshold, MaxIterations);
      fns.ln(fns.sqrt(ModulusSq(Orbit(n, c)))) > 0.0
  {
    var n := EscapeCount(c, EscapeThreshold, MaxIterations);
    EscapeCountEscapes(c, EscapeThreshold, MaxIterations);
    var d := fns.sqrt(ModulusSq(Orbit(n, c)));
    RootOfAtLeastFour(d);
  }

  /**
   * The render this renderer performs: threshold 4, cap 255, pixels that
   * reach the cap skipped, and colorFunc given the count and mu.
   */
  function SkipScene(width: nat, height: nat, xRange: Range, yRange: Range,
                     colorFunc: (nat, real) -> Colour, fns: MathFns): (s: Scene)
    ensures s.width == width && s.height == height && s.xRange == xRange && s.yRange == yRange
    ensures s.threshold == EscapeThreshold && s.maxIterations == MaxIterations && !s.paintInside
    ensures forall n, m :: s.colour(n, m) == colorFunc(n, Mu(fns, n, fns.sqrt(m)))
  {
    Scene(width, height, xRange, yRange, EscapeThreshold, MaxIterations,
          (n: nat, m: real) => colorFunc(n, Mu(fns, n, fns.sqrt(m))), false)
  }

  /**
   * The renderer: the image data starts zeroed and ends as the picture of
   * the scene; it is what gets put on the canvas.
   */
  method DrawBurningShipFractal(width: nat, height: nat, xRange: Range, yRange: Range,
                                colorFunc: (nat, real) -> Colour, fns: MathFns)
    returns (image: array<int>)
    requires width > 0 && height > 0
    ensures fresh(image)
    ensures image[..] == Picture(SkipScene(width, height, xRange, yRange, colorFunc, fns), Blank(4 * width * height))
  {
    var s := SkipScene(width, height, xRange, yRange, colorFunc, fns);
    image := new int[4 * width * height](_ => 0);
    assert image[..] == Blank(4 * width * height);
    Render(image, s);
  }

  /**
   * A pixel that never escapes keeps the zero of the fresh image data in
   * all four channels: it is left transparent.
   */
  lemma InsidePixelStaysBlank(width: nat, height: nat, xRange: Range, yRange: Range,
                              colorFunc: (nat, real) -> Colour, fns: MathFns, i: nat, j: nat, p: nat)
    requires width > 0 && height > 0 && i < height && j < width && p < 4
    requires EscapeCount(PixelPoint(SkipScene(width, height, xRange, yRange, colorFunc, fns), i, j),
                         EscapeThreshold, MaxIterations) == MaxIterations
    ensures PixelOffset(width, i, j) + p < 4 * width * height
    ensures Picture(SkipScene(width, height, xRange, yRange, colorFunc, fns), Blank(4 * width * height))
              [PixelOffset(width, i, j) + p] == 0
  {
    var s := SkipScene(width, height, xRange, yRange, colorFunc, fns);
    SkippedPixelKeepsBase(s, Blank(4 * width * height), i, j, p);
  }

  /**
   * A pixel that escapes gets colorFunc's channels for its count and its mu
   * computed from the final distance.
   */
  lemma EscapedPixelGetsColorFunc(width: nat, height: nat, xRange: Range, yRange: Range,
                                  colorFunc: (nat, real) -> Colour, fns: MathFns, i: nat, j: nat, p: nat)
    requires width > 0 && height > 0 && i < height && j < width && p < 4
    requires EscapeCount(PixelPoint(SkipScene(width, height, xRange, yRange, colorFunc, fns), i, j),
                         EscapeThreshold, MaxIterations) < MaxIterations
    ensures PixelOffset(width, i, j) + p < 4 * width * height
    ensures var c := PixelPoint(SkipScene(width, height, xRange, yRange, colorFunc, fns), i, j);
      var n := EscapeCount(c, EscapeThreshold, MaxIterations);
      Picture(SkipScene(width, height, xRange, yRange, colorFunc, fns), Blank(4 * width * height))
        [PixelOffset(width, i, j) + p] ==
      ClampToByte(ChannelValue(colorFunc(n, Mu(fns, n, fns.sqrt(ModulusSq(Orbit(n, c))))), p))
  {
    var s := SkipScene(width, height, xRange, yRange, colorFunc, fns);
    EscapedPixelGetsColour(s, Blank(4 * width * height), i, j, p);
  }
}
