/**
 * The first page script: one renderer with the evaluator loop written
 * inline (threshold 4, cap 100), a fixed view, and a drawFunc callback that
 * writes each pixel's channels itself, called for every pixel.
 */
module LegacyMain {
  import opened EscapeTime
  import opened Viewport
  import opened Raster

  const MaxIterations: nat := 100
  const EscapeThreshold: real := 4.0
  /** The fixed view: x from -1.80 to -1.7, y from -0.08 to 0.01. */
  const XRange: Range := Range(-1.80, -1.7)
  const YRange: Range := Range(-0.08, 0.01)

  /**
   * The render this renderer performs when drawFunc writes the colour
   * drawColour(iteration) into the pixel's four channels: every pixel
   * painted, the squared modulus unused.
   */
  function LegacyScene(width: nat, height: nat, drawColour: nat -> Colour): (s: Scene)
    ensures s.width == width && s.height == height && s.xRange == XRange && s.yRange == YRange
    ensures s.threshold == EscapeThreshold && s.maxIterations == MaxIterations && s.paintInside
    ensures forall n, m :: s.colour(n, m) == drawColour(n)
  {
    Scene(width, height, XRange, YRange, EscapeThreshold, MaxIterations,
          (n: nat, m: real) => drawColour(n), true)
  }

  /**
   * The fixed view: column 0 maps to -1.80 and row 0 to -0.08, and the
   * columns and rows span 0.10 and 0.09 of the plane.
   */
  lemma LegacyMapping(width: nat, height: nat, drawColour: nat -> Colour)
    requires width > 0 && height > 0
    ensures PixelPoint(LegacyScene(width, height, drawColour), 0, 0) == Point(-1.80, -0.08)
    ensures PlaneCoord(XRange.lo, XRange.hi, width, width) - PlaneCoord(XRange.lo, XRange.hi, 0, width) == 0.10
    ensures PlaneCoord(YRange.lo, YRange.hi, height, height) - PlaneCoord(YRange.lo, YRange.hi, 0, height) == 0.09
  {
    FirstPixelIsCorner(LegacyScene(width, height, drawColour));
    PlaneCoordAtEnd(XRange.lo, XRange.hi, width);
    PlaneCoordAtEnd(YRange.lo, YRange.hi, height);
  }

  /**
   * The first half of the column-loop body for pixel (i, j): map it into
   * the fixed view and run the evaluator loop (written inline in this
   * renderer; it is the loop of IterateUntilEscape with threshold 4 and
   * cap 100).
   */
  method EvaluatePixel(width: nat, height: nat, i: nat, j: nat, ghost drawColour: nat -> Colour)
    returns (iteration: nat)
    requires width > 0 && height > 0
    ensures iteration == PixelCount(LegacyScene(width, height, drawColour), i, j)
  {
    ghost var s := LegacyScene(width, height, drawColour);
    var x0 := -1.80 + (j as real) * (-1.7 + 1.80) / (width as real);
    assert x0 == PixelPoint(s, i, j).x;
    var y0 := -0.08 + (i as real) * (0.01 + 0.08) / (height as real);
    assert y0 == PixelPoint(s, i, j).y;
    var modulusSq;
    iteration, modulusSq := IterateUntilEscape(x0, y0, EscapeThreshold, MaxIterations);
  }

  /**
   * The column-loop body for pixel (i, j): evaluate it, then call drawFunc
   * with the pixel's offset and count; drawFunc writes the colour
   * drawColour(iteration) into the pixel's four channels. Returns the
   * offset drawFunc was given.
   */
  method DrawPixel(image: array<int>, ghost s: Scene, width: nat, height: nat, i: nat, j: nat,
                   drawColour: nat -> Colour)
    returns (ind: nat)
    requires s == LegacyScene(width, height, drawColour)
    requires width > 0 && height > 0 && image.Length == 4 * width * height && i < height && j < width
    modifies image
    ensures ind == PixelOffset(width, i, j)
    ensures forall k :: 0 <= k < image.Length ==>
      image[k] == if ind <= k < ind + 4 then ChannelAfter(s, k, old(image[k])) else old(image[k])
  {
    var iteration := EvaluatePixel(width, height, i, j, drawColour);
    ind := i * width * 4 + j * 4;
    PixelOffsetInBounds(width, height, i, j);
    PaintPixel(image, ind, drawColour(iteration));
    forall k | ind <= k < ind + 4
      ensures ChannelAfter(s, k, old(image[k])) == ClampToByte(ChannelValue(drawColour(iteration), k - ind))
    {
      ChannelAfterInSlot(s, i, j, k, old(image[k]));
    }
  }

  /** The offsets of the first n pixels of row i. */
  function RowOffsets(width: nat, i: nat, n: nat): (r: seq<nat>)
    ensures |r| == n
  {
    seq(n, q requires 0 <= q < n => PixelOffset(width, i, q))
  }

  /** The offsets drawFunc is given over pixels 0 .. n - 1 in row-major order: 0, 4, 8, ... */
  function CallOffsets(n: nat): (r: seq<nat>)
    ensures |r| == n
  {
    seq(n, p => 4 * p)
  }

  /** The column loop of row i; calls lists the offsets drawFunc was given, in order. */
  method DrawRow(image: array<int>, ghost s: Scene, width: nat, height: nat, i: nat, drawColour: nat -> Colour)
    returns (ghost calls: seq<nat>)
    requires s == LegacyScene(width, height, drawColour)
    requires width > 0 && height > 0 && image.Length == 4 * width * height && i < height
    modifies image
    ensures calls == RowOffsets(width, i, width)
    ensures forall k :: 0 <= k < image.Length ==>
      image[k] == if PixelOffset(width, i, 0) <= k < PixelOffset(width, i + 1, 0)
                  then ChannelAfter(s, k, old(image[k])) else old(image[k])
  {
    calls := [];
    for j := 0 to width
      invariant calls == RowOffsets(width, i, j)
      invariant forall k :: 0 <= k < image.Length ==>
        image[k] == if PixelOffset(width, i, 0) <= k < PixelOffset(width, i, j)
                    then ChannelAfter(s, k, old(image[k])) else old(image[k])
    {
      var ind := DrawPixel(image, s, width, height, i, j, drawColour);
      calls := calls + [ind];
    }
  }

  /** Appending row i's offsets to those of the rows above gives the offsets of the first i + 1 rows. */
  lemma CallOffsetsNextRow(width: nat, i: nat)
    ensures CallOffsets(i * width) + RowOffsets(width, i, width) == CallOffsets((i + 1) * width)
  {
    assert (i + 1) * width == i * width + width;
    var r := CallOffsets(i * width) + RowOffsets(width, i, width);
    forall p | 0 <= p < (i + 1) * width
      ensures r[p] == CallOffsets((i + 1) * width)[p]
    {
      if p >= i * width {
        assert r[p] == PixelOffset(width, i, p - i * width);
      }
    }
  }

  /**
   * The renderer: zeroed image data, every pixel handed to drawFunc exactly
   * once in row-major order with its own offset, and the image ends as the
   * picture of the scene.
   */
  method DrawBurningShipFractal(width: nat, height: nat, drawColour: nat -> Colour)
    returns (image: array<int>, ghost calls: seq<nat>)
    requires width > 0 && height > 0
    ensures fresh(image)
    ensures image[..] == Picture(LegacyScene(width, height, drawColour), Blank(4 * width * height))
    ensures calls == CallOffsets(width * height)
  {
    ghost var s := LegacyScene(width, height, drawColour);
    image := new int[4 * width * height](_ => 0);
    ghost var base := image[..];
    assert base == Blank(4 * width * height);
    calls := [];
    for i := 0 to height
      invariant calls == CallOffsets(i * width)
      invariant forall k :: 0 <= k < image.Length ==>
        image[k] == if k < PixelOffset(width, i, 0)
                    then ChannelAfter(s, k, base[k]) else base[k]
    {
      RowsFollowEachOther(width, i);
      var row := DrawRow(image, s, width, height, i, drawColour);
      CallOffsetsNextRow(width, i);
      calls := calls + row;
    }
    assert PixelOffset(width, height, 0) == image.Length;
    assert height * width == width * height;
    assert forall k :: 0 <= k < image.Length ==> image[k] == Picture(s, base)[k];
  }

  /** Every offset drawFunc is given is that of a pixel whose four channels lie in the image. */
  lemma CallsInBounds(width: nat, height: nat, p: nat)
    requires p < width * height
    ensures CallOffsets(width * height)[p] + 4 <= 4 * width * height
  {
  }

  /** canvas1's colour: (25 + 30n, 25 + 10n, 85 - 5n, 255) for count n. */
  function Canvas1Colour(iteration: nat): (c: Colour)
    ensures c.a == 255.0
  {
    Colour(25.0 + (iteration as real) * 30.0, 25.0 + (iteration as real) * 10.0,
           85.0 - (iteration as real) * 5.0, 255.0)
  }

  /**
   * canvas1's drawFunc: writes the four channels of its colour at
   * ind .. ind + 3, alpha always 255, and touches nothing else.
   */
  method Canvas1DrawFunc(image: array<int>, ind: nat, iteration: nat)
    requires ind + 4 <= image.Length
    modifies image
    ensures image[ind + 3] == 255
    ensures forall k :: 0 <= k < image.Length ==>
      image[k] == if ind <= k < ind + 4 then ClampToByte(ChannelValue(Canvas1Colour(iteration), k - ind))
                  else old(image[k])
  {
    image[ind + 0] := ClampToByte(25.0 + (iteration as real) * 30.0);
    image[ind + 1] := ClampToByte(25.0 + (iteration as real) * 10.0);
    image[ind + 2] := ClampToByte(85.0 - (iteration as real) * 5.0);
    image[ind + 3] := ClampToByte(255.0);
  }

  /**
   * The canvas1 call: the renderer with canvas1's colour, so the image data
   * ends as the legacy picture of Canvas1Colour.
   */
  method DrawCanvas1(width: nat, height: nat) returns (image: array<int>)
    requires width > 0 && height > 0
    ensures fresh(image)
    ensures image[..] == Picture(LegacyScene(width, height, Canvas1Colour), Blank(4 * width * height))
  {
    ghost var calls;
    image, calls := DrawBurningShipFractal(width, height, Canvas1Colour);
  }

  /**
   * Each channel canvas1 ends with is the one Canvas1DrawFunc writes for
   * that pixel's count: DrawPixel's PaintPixel step with Canvas1Colour and
   * Canvas1DrawFunc leave the same slot, and alpha is 255 everywhere.
   */
  lemma Canvas1Picture(width: nat, height: nat, i: nat, j: nat, p: nat)
    requires width > 0 && height > 0 && i < height && j < width && p < 4
    ensures PixelOffset(width, i, j) + p < 4 * width * height
    ensures var s := LegacyScene(width, height, Canvas1Colour);
      Picture(s, Blank(4 * width * height))[PixelOffset(width, i, j) + p] ==
      ClampToByte(ChannelValue(Canvas1Colour(PixelCount(s, i, j)), p))
    ensures p == 3 ==>
      Picture(LegacyScene(width, height, Canvas1Colour), Blank(4 * width * height))[PixelOffset(width, i, j) + 3] == 255
  {
    var s := LegacyScene(width, height, Canvas1Colour);
    PictureAtPixel(s, Blank(4 * width * height), i, j, p);
    assert PixelColour(s, i, j) == Canvas1Colour(PixelCount(s, i, j));
    Canvas1StoredChannels(PixelCount(s, i, j));
  }

  /** What canvas1 stores: red and green saturate at 255, blue bottoms out at 0. */
  lemma Canvas1StoredChannels(iteration: nat)
    ensures ClampToByte(Canvas1Colour(iteration).r) == if 25 + 30 * iteration >= 255 then 255 else 25 + 30 * iteration
    ensures ClampToByte(Canvas1Colour(iteration).g) == if 25 + 10 * iteration >= 255 then 255 else 25 + 10 * iteration
    ensures ClampToByte(Canvas1Colour(iteration).b) == if 85 - 5 * iteration <= 0 then 0 else 85 - 5 * iteration
    ensures ClampToByte(Canvas1Colour(iteration).a) == 255
  {
    if 25 + 30 * iteration < 255 {
      ClampToByteKeepsBytes(25 + 30 * iteration);
    }
    if 25 + 10 * iteration < 255 {
      ClampToByteKeepsBytes(25 + 10 * iteration);
    }
    if 85 - 5 * iteration > 0 {
      ClampToByteKeepsBytes(85 - 5 * iteration);
    }
  }
}
