/**
 * The plain-script page: canvases that keep their plane ranges in
 * two-element arrays overwritten in place, map pointer offsets by the
 * canvas's backing size, and paint every pixel, including those that never
 * escape; plus the colour closures the page passes them.
 */
module RootMain {
  import opened EscapeTime
  import opened Viewport
  import opened Raster

  const MaxIterations: nat := 255
  const EscapeThreshold: real := 4.0

  /** The evaluator: the iteration count and the squared modulus it stopped at. */
  method IterateUntilEscape(x0: real, y0: real) returns (numIterations: nat, modulusSq: real)
    ensures numIterations == EscapeCount(Point(x0, y0), EscapeThreshold, MaxIterations)
    ensures numIterations <= MaxIterations
    ensures modulusSq == ModulusSq(Orbit(numIterations, Point(x0, y0)))
    ensures numIterations < MaxIterations ==> modulusSq >= EscapeThreshold
  {
    numIterations, modulusSq := EscapeTime.IterateUntilEscape(x0, y0, EscapeThreshold, MaxIterations);
  }

  /** The flame palette shared by several closures: (25 + 30t, 25 + 10t, 85 - 5t, 255). */
  function Flame(t: real): (c: Colour)
    ensures c.a == 255.0
  {
    Colour(25.0 + t * 30.0, 25.0 + t * 10.0, 85.0 - t * 5.0, 255.0)
  }

  /** The wide canvas: a fixed orange inside the ship, the flame palette of mu outside. */
  function WideColour(fns: MathFns, iteration: nat, modulusSq: real): (c: Colour)
    ensures iteration == MaxIterations ==> c == Colour(200.0, 70.0, 5.0, 255.0)
    ensures iteration != MaxIterations ==> c == Flame(Mu(fns, iteration, fns.sqrt(modulusSq)))
    ensures c.a == 255.0
  {
    if iteration == MaxIterations then Colour(200.0, 70.0, 5.0, 255.0)
    else Flame(MuOfModulusSq(fns, iteration, modulusSq))
  }

  /** The black-ship canvases: black inside the ship, the flame palette of mu outside. */
  function ShipColour(fns: MathFns, iteration: nat, modulusSq: real): (c: Colour)
    ensures iteration == MaxIterations ==> c == Colour(0.0, 0.0, 0.0, 255.0)
    ensures iteration != MaxIterations ==> c == Flame(Mu(fns, iteration, fns.sqrt(modulusSq)))
    ensures c.a == 255.0
  {
    if iteration == MaxIterations then Colour(0.0, 0.0, 0.0, 255.0)
    else Flame(MuOfModulusSq(fns, iteration, modulusSq))
  }

  /** The bright canvas: black inside the ship, the flame palette of the raw count outside. */
  function IterationColour(iteration: nat): (c: Colour)
    ensures iteration == MaxIterations ==> c == Colour(0.0, 0.0, 0.0, 255.0)
    ensures iteration != MaxIterations ==> c == Flame(iteration as real)
    ensures c.a == 255.0
  {
    if iteration == MaxIterations then Colour(0.0, 0.0, 0.0, 255.0)
    else Flame(iteration as real)
  }

  /** The alpha canvas: black, with the iteration count as its alpha. */
  function AlphaColour(iteration: nat): (c: Colour)
    ensures c.r == 0.0 && c.g == 0.0 && c.b == 0.0
    ensures iteration <= MaxIterations ==> 0.0 <= c.a <= 255.0 && c.a == iteration as real
  {
    Colour(0.0, 0.0, 0.0, iteration as real)
  }

  /** Truncation towards zero. */
  function Truncate(x: real): (t: int)
    ensures x >= 0.0 ==> 0 <= t && t as real <= x < t as real + 1.0
    ensures x < 0.0 ==> t <= 0 && t as real - 1.0 < x <= t as real
  {
    if x >= 0.0 then x.Floor else -((-x).Floor)
  }

  /** Wrap-around of an integer to 32-bit two's complement. */
  function Wrap32(t: int): (r: int)
    ensures -0x8000_0000 <= r < 0x8000_0000
    ensures (r - t) % 0x1_0000_0000 == 0
  {
    var w := t % 0x1_0000_0000;
    if w >= 0x8000_0000 then w - 0x1_0000_0000 else w
  }

  /** A value already in 32-bit range is left as it is by the wrap-around. */
  lemma Wrap32InRange(t: int)
    requires -0x8000_0000 <= t < 0x8000_0000
    ensures Wrap32(t) == t
  {
    if t < 0 {
      DivModUnique(t, 0x1_0000_0000, -1, t + 0x1_0000_0000);
    } else {
      DivModUnique(t, 0x1_0000_0000, 0, t);
    }
  }

  /**
   * JavaScript's ~~x (ToInt32) of a finite x: truncate towards zero, then
   * wrap to 32 bits; inside the 32-bit range it is plain truncation.
   */
  function ToInt32(x: real): (r: int)
    ensures -0x8000_0000 <= r < 0x8000_0000
    ensures -2147483648.0 < x < 2147483648.0 ==> r == Truncate(x)
  {
    var t := Truncate(x);
    if -0x8000_0000 <= t < 0x8000_0000 then Wrap32InRange(t); Wrap32(t) else Wrap32(t)
  }

  /** The depth canvas: black inside, outside black fading with the truncated mu. */
  function DepthColour(fns: MathFns, iteration: nat, modulusSq: real): (c: Colour)
    ensures c.r == 0.0 && c.g == 0.0 && c.b == 0.0
    ensures iteration == MaxIterations ==> c.a == 255.0
    ensures iteration != MaxIterations && 0.0 <= Mu(fns, iteration, fns.sqrt(modulusSq)) < 2147483648.0 ==>
      c.a == 255.0 - Mu(fns, iteration, fns.sqrt(modulusSq)).Floor as real
  {
    if iteration == MaxIterations then Colour(0.0, 0.0, 0.0, 255.0)
    else Colour(0.0, 0.0, 0.0, 255.0 - ToInt32(MuOfModulusSq(fns, iteration, modulusSq)) as real)
  }

  /** The last canvas's smooth count n - ln(ln(sqrt(modulusSq))) / ln(2), without the + 1. */
  function LogRatioMu(fns: MathFns, iteration: nat, modulusSq: real): (mu: real)
    requires fns.ln(2.0) != 0.0
    ensures IsLog2(fns) ==> mu == Mu(fns, iteration, fns.sqrt(modulusSq)) - 1.0
  {
    iteration as real - fns.ln(fns.ln(fns.sqrt(modulusSq))) / fns.ln(2.0)
  }

  /** The last canvas: black inside the ship, the flame palette of LogRatioMu outside. */
  function RatioColour(fns: MathFns, iteration: nat, modulusSq: real): (c: Colour)
    requires fns.ln(2.0) != 0.0
    ensures iteration == MaxIterations ==> c == Colour(0.0, 0.0, 0.0, 255.0)
    ensures c.a == 255.0
  {
    if iteration == MaxIterations then Colour(0.0, 0.0, 0.0, 255.0)
    else Flame(LogRatioMu(fns, iteration, modulusSq))
  }

  /** What the model assumes of log2 when comparing the two formulas: ln(r) / ln(2). */
  ghost predicate IsLog2(fns: MathFns) {
    fns.ln(2.0) != 0.0 && forall r :: fns.log2(r) == fns.ln(r) / fns.ln(2.0)
  }

  /**
   * The last canvas's palette is the other flame canvases' palette moved one
   * step back, when log2 is ln / ln 2.
   */
  lemma RatioColourIsFlameOneBack(fns: MathFns, iteration: nat, modulusSq: real)
    requires IsLog2(fns)
    ensures iteration != MaxIterations ==>
      RatioColour(fns, iteration, modulusSq) == Flame(MuOfModulusSq(fns, iteration, modulusSq) - 1.0)
  {
  }

  /** The last canvas is black and opaque inside the ship and opaque everywhere. */
  lemma RatioCanvasIsOpaque(fns: MathFns, iteration: nat, modulusSq: real)
    requires fns.ln(2.0) != 0.0
    ensures RatioColour(fns, MaxIterations, modulusSq) == Colour(0.0, 0.0, 0.0, 255.0)
    ensures ClampToByte(RatioColour(fns, iteration, modulusSq).a) == 255
  {
  }

  /** Pixels inside the ship get a fixed, opaque colour under every closure that tests the cap. */
  lemma CapColoursAreFixedAndOpaque(fns: MathFns, modulusSq: real)
    ensures WideColour(fns, MaxIterations, modulusSq) == Colour(200.0, 70.0, 5.0, 255.0)
    ensures ShipColour(fns, MaxIterations, modulusSq) == Colour(0.0, 0.0, 0.0, 255.0)
    ensures IterationColour(MaxIterations) == Colour(0.0, 0.0, 0.0, 255.0)
    ensures DepthColour(fns, MaxIterations, modulusSq) == Colour(0.0, 0.0, 0.0, 255.0)
    ensures ClampToByte(WideColour(fns, MaxIterations, modulusSq).r) == 200
    ensures ClampToByte(WideColour(fns, MaxIterations, modulusSq).g) == 70
    ensures ClampToByte(WideColour(fns, MaxIterations, modulusSq).b) == 5
  {
    ClampToByteKeepsBytes(200);
    ClampToByteKeepsBytes(70);
    ClampToByteKeepsBytes(5);
  }

  /** Every pixel of the flame canvases is stored fully opaque, escaped or not. */
  lemma FlameCanvasesAreOpaque(fns: MathFns, iteration: nat, modulusSq: real)
    ensures ClampToByte(WideColour(fns, iteration, modulusSq).a) == 255
    ensures ClampToByte(ShipColour(fns, iteration, modulusSq).a) == 255
    ensures ClampToByte(IterationColour(iteration).a) == 255
  {
  }

  /** The alpha canvas stores the count itself as the alpha byte. */
  lemma AlphaCanvasStoresCount(iteration: nat)
    requires iteration <= MaxIterations
    ensures ClampToByte(AlphaColour(iteration).a) == iteration
  {
    ClampToByteKeepsBytes(iteration);
  }

  /**
   * On the depth canvas an escaped pixel whose mu lies in [0, 255] is
   * stored with alpha 255 minus the whole part of mu.
   */
  lemma DepthColourFades(fns: MathFns, iteration: nat, modulusSq: real)
    requires iteration != MaxIterations
    requires 0.0 <= MuOfModulusSq(fns, iteration, modulusSq) <= 255.0
    ensures ClampToByte(DepthColour(fns, iteration, modulusSq).a) ==
      255 - MuOfModulusSq(fns, iteration, modulusSq).Floor
  {
    var mu := MuOfModulusSq(fns, iteration, modulusSq);
    Wrap32InRange(Truncate(mu));
    ClampToByteKeepsBytes(255 - mu.Floor);
  }

  class BurningShipFractalCanvas {
    const canvasWidth: nat
    const canvasHeight: nat
    /** The two-element range arrays, shared with whoever constructed the canvas. */
    const xRange: array<real>
    const yRange: array<real>
    const colorFunc: (nat, real) -> Colour

    var canvas: seq<int>

    ghost predicate Valid()
      reads this, xRange, yRange
    {
      canvasWidth > 0 && canvasHeight > 0 &&
      xRange.Length == 2 && yRange.Length == 2 && xRange != yRange &&
      |canvas| == 4 * canvasWidth * canvasHeight
    }

    /** What render draws from the ranges as they are now: every pixel painted. */
    function CurrentScene(): Scene
      reads this, xRange, yRange
      requires xRange.Length == 2 && yRange.Length == 2
    {
      Scene(canvasWidth, canvasHeight, Range(xRange[0], xRange[1]), Range(yRange[0], yRange[1]),
            EscapeThreshold, MaxIterations, colorFunc, true)
    }

    constructor(canvasWidth: nat, canvasHeight: nat, xRange: array<real>, yRange: array<real>,
                colorFunc: (nat, real) -> Colour)
      requires canvasWidth > 0 && canvasHeight > 0
      requires xRange.Length == 2 && yRange.Length == 2 && xRange != yRange
      ensures Valid()
      ensures this.canvasWidth == canvasWidth && this.canvasHeight == canvasHeight
      ensures this.xRange == xRange && this.yRange == yRange && this.colorFunc == colorFunc
      ensures canvas == Blank(4 * canvasWidth * canvasHeight)
    {
      this.canvasWidth := canvasWidth;
      this.canvasHeight := canvasHeight;
      this.xRange := xRange;
      this.yRange := yRange;
      this.colorFunc := colorFunc;
      canvas := Blank(4 * canvasWidth * canvasHeight);
    }

    /**
     * Button down: index 0 of each range becomes the pointer's plane
     * coordinate, with offsets measured against the backing size.
     */
    method OnMouseDown(offsetX: real, offsetY: real)
      requires Valid()
      modifies xRange, yRange
      ensures Valid()
      ensures xRange[..] == [Lerp(old(xRange[0]), old(xRange[1]), offsetX, canvasWidth as real), old(xRange[1])]
      ensures yRange[..] == [Lerp(old(yRange[0]), old(yRange[1]), offsetY, canvasHeight as real), old(yRange[1])]
    {
      var x0 := Lerp(xRange[0], xRange[1], offsetX, canvasWidth as real);
      var y0 := Lerp(yRange[0], yRange[1], offsetY, canvasHeight as real);
      xRange[0] := x0;
      yRange[0] := y0;
    }

    /**
     * Button up: index 1 of each range becomes the pointer's coordinate
     * across the ranges as they are now, and the canvas is rendered.
     */
    method OnMouseUp(offsetX: real, offsetY: real)
      requires Valid()
      modifies this, xRange, yRange
      ensures Valid()
      ensures xRange[..] == [old(xRange[0]), Lerp(old(xRange[0]), old(xRange[1]), offsetX, canvasWidth as real)]
      ensures yRange[..] == [old(yRange[0]), Lerp(old(yRange[0]), old(yRange[1]), offsetY, canvasHeight as real)]
      ensures canvas == Picture(CurrentScene(), Blank(4 * canvasWidth * canvasHeight))
    {
      var x1 := Lerp(xRange[0], xRange[1], offsetX, canvasWidth as real);
      var y1 := Lerp(yRange[0], yRange[1], offsetY, canvasHeight as real);
      xRange[1] := x1;
      yRange[1] := y1;
      Render();
    }

    /**
     * A press at (downX, downY) followed by a release at (upX, upY): the
     * ranges end as PressThenRelease of the view that was shown, and the
     * canvas holds the picture of the new view.
     */
    method Drag(downX: real, downY: real, upX: real, upY: real)
      requires Valid()
      modifies this, xRange, yRange
      ensures Valid()
      ensures Range(xRange[0], xRange[1]) ==
        PressThenRelease(Range(old(xRange[0]), old(xRange[1])), downX, upX, canvasWidth as real)
      ensures Range(yRange[0], yRange[1]) ==
        PressThenRelease(Range(old(yRange[0]), old(yRange[1])), downY, upY, canvasHeight as real)
      ensures canvas == Picture(CurrentScene(), Blank(4 * canvasWidth * canvasHeight))
    {
      OnMouseDown(downX, downY);
      OnMouseUp(upX, upY);
    }

    /**
     * Renders every pixel of the current ranges into fresh image data and
     * puts it on the canvas; what the canvas held before plays no part.
     */
    method Render()
      requires Valid()
      modifies this
      ensures Valid()
      ensures canvas == Picture(CurrentScene(), Blank(4 * canvasWidth * canvasHeight))
      ensures forall base :: |base| == 4 * canvasWidth * canvasHeight ==> canvas == Picture(CurrentScene(), base)
    {
      var image := new int[4 * canvasWidth * canvasHeight](_ => 0);
      assert image[..] == Blank(4 * canvasWidth * canvasHeight);
      Raster.Render(image, CurrentScene());
      canvas := image[..];
      forall base | |base| == 4 * canvasWidth * canvasHeight
        ensures canvas == Picture(CurrentScene(), base)
      {
        PaintAllIgnoresBase(CurrentScene(), Blank(4 * canvasWidth * canvasHeight), base);
      }
    }
  }
}
