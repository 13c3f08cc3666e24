/**
 * The escape-time renderer shared by every variant: a nested row/column loop
 * that maps each pixel into the plane, evaluates it, and writes its RGBA
 * colour into a byte buffer of 4 * width * height channels at offset
 * 4 * (i * width + j). Variants differ in the threshold, the cap, the colour
 * function, and whether pixels that never escape are painted or skipped.
 */
module Raster {
  import opened EscapeTime
  import opened Viewport

  /** The four channels a colour function returns, before they are stored. */
  datatype Colour = Colour(r: real, g: real, b: real, a: real)

  function ChannelValue(c: Colour, p: nat): real
    requires p < 4
  {
    if p == 0 then c.r else if p == 1 then c.g else if p == 2 then c.b else c.a
  }

  /** Round to the nearest integer, ties to the even one. */
  function RoundHalfEven(v: real): (n: int)
    ensures -0.5 <= n as real - v <= 0.5
  {
    var f := v.Floor;
    var frac := v - f as real;
    if frac > 0.5 then f + 1
    else if frac < 0.5 then f
    else if f % 2 == 0 then f
    else f + 1
  }

  /**
   * The value a Uint8ClampedArray stores when assigned v: clamped to
   * [0, 255] and rounded to the nearest integer, ties to even.
   */
  function ClampToByte(v: real): (b: int)
    ensures 0 <= b <= 255
    ensures v <= 0.0 ==> b == 0
    ensures v >= 255.0 ==> b == 255
    ensures 0.0 <= v <= 255.0 ==> -0.5 <= b as real - v <= 0.5
  {
    if v <= 0.0 then 0
    else if v >= 255.0 then 255
    else RoundHalfEven(v)
  }

  /** A whole number in [0, 255] is stored unchanged. */
  lemma ClampToByteKeepsBytes(n: int)
    requires 0 <= n <= 255
    ensures ClampToByte(n as real) == n
  {
    assert (n as real).Floor == n;
  }

  /** A value half-way between two bytes is stored as the even one. */
  lemma ClampToByteTieToEven(n: int)
    requires 0 <= n < 255
    ensures ClampToByte(n as real + 0.5) == if n % 2 == 0 then n else n + 1
  {
    assert (n as real + 0.5).Floor == n;
  }

  /**
   * Everything one render depends on: the backing size of the canvas, the
   * plane ranges, the evaluator's threshold and cap, the colour function
   * (given the iteration count and the final squared modulus), and whether
   * pixels that reach the cap are painted too.
   */
  datatype Scene = Scene(
    width: nat, height: nat,
    xRange: Range, yRange: Range,
    threshold: real, maxIterations: nat,
    colour: (nat, real) -> Colour,
    paintInside: bool)
  {
    /** The image data can be created: both sides are non-zero. */
    predicate Valid() {
      width > 0 && height > 0
    }

    function BufferSize(): nat {
      4 * width * height
    }
  }

  /** The plane point of the pixel in row i, column j. */
  function PixelPoint(s: Scene, i: nat, j: nat): Point
    requires s.Valid()
  {
    Point(PlaneCoord(s.xRange.lo, s.xRange.hi, j, s.width),
          PlaneCoord(s.yRange.lo, s.yRange.hi, i, s.height))
  }

  function PixelCount(s: Scene, i: nat, j: nat): nat
    requires s.Valid()
  {
    EscapeCount(PixelPoint(s, i, j), s.threshold, s.maxIterations)
  }

  /** Whether the renderer writes the pixel: always, or only when it escaped. */
  predicate Paints(s: Scene, i: nat, j: nat)
    requires s.Valid()
  {
    s.paintInside || PixelCount(s, i, j) != s.maxIterations
  }

  /** The colour function applied to what the evaluator returns for the pixel. */
  function PixelColour(s: Scene, i: nat, j: nat): Colour
    requires s.Valid()
  {
    var n := PixelCount(s, i, j);
    s.colour(n, ModulusSq(Orbit(n, PixelPoint(s, i, j))))
  }

  /** The offset of the first channel of pixel (i, j): i * width * 4 + j * 4. */
  function PixelOffset(width: nat, i: nat, j: nat): (r: nat)
    ensures r == 4 * i * width + 4 * j
    ensures r == 4 * (i * width + j)
  {
    i * width * 4 + j * 4
  }

  /**
   * The value channel k holds after a render, given the value it held
   * before: the stored colour channel if its pixel is painted, else the old
   * value.
   */
  function ChannelAfter(s: Scene, k: nat, prior: int): int
    requires s.Valid()
  {
    var q := k / 4;
    var i := q / s.width;
    var j := q % s.width;
    if Paints(s, i, j) then ClampToByte(ChannelValue(PixelColour(s, i, j), k % 4)) else prior
  }

  /** The buffer after a render of s over the buffer base. */
  function Picture(s: Scene, base: seq<int>): (r: seq<int>)
    requires s.Valid()
    ensures |r| == |base|
  {
    seq(|base|, k requires 0 <= k < |base| => ChannelAfter(s, k, base[k]))
  }

  /** A buffer of n channels, all zero, as image data is created. */
  function Blank(n: nat): (r: seq<int>)
    ensures |r| == n
  {
    seq(n, _ => 0)
  }

  /** A multiple e * d of a positive d is at least d away from 0 unless e is 0. */
  lemma MultipleAwayFromZero(e: int, d: int)
    requires d > 0
    ensures e >= 1 ==> e * d >= d
    ensures e <= -1 ==> e * d <= -d
  {
    if e >= 1 {
      assert e * d == d + (e - 1) * d;
    } else if e <= -1 {
      assert e * d == -d + (e + 1) * d;
    }
  }

  /** Euclidean division is determined by its defining equation. */
  lemma DivModUnique(a: int, d: int, q: int, r: int)
    requires d > 0 && 0 <= r < d && a == q * d + r
    ensures a / d == q && a % d == r
  {
    var q', r' := a / d, a % d;
    var e := q - q';
    assert e * d == r' - r by {
      assert q * d - q' * d == e * d;
    }
    MultipleAwayFromZero(e, d);
  }

  /**
   * The channel at offset PixelOffset(w, i, j) + p belongs to pixel (i, j)
   * and is its channel p.
   */
  lemma DecodeChannel(w: nat, i: nat, j: nat, p: nat)
    requires w > 0 && j < w && p < 4
    ensures var k := PixelOffset(w, i, j) + p;
      k / 4 == i * w + j && (k / 4) / w == i && (k / 4) % w == j && k % 4 == p
  {
    var k := PixelOffset(w, i, j) + p;
    DivModUnique(k, 4, i * w + j, p);
    DivModUnique(i * w + j, w, i, j);
  }

  /** Every pixel's four channels lie inside the buffer. */
  lemma PixelOffsetInBounds(w: nat, h: nat, i: nat, j: nat)
    requires i < h && j < w
    ensures PixelOffset(w, i, j) + 4 <= 4 * w * h
  {
    assert j + 1 <= w;
    assert i * w + j + 1 <= i * w + w == (i + 1) * w;
    assert (i + 1) * w <= h * w;
  }

  /** Row i + 1 starts where row i's 4 * w channels end. */
  lemma RowsFollowEachOther(w: nat, i: nat)
    ensures PixelOffset(w, i + 1, 0) == PixelOffset(w, i, 0) + 4 * w
  {
  }

  /** Distinct pixels own disjoint four-channel slots. */
  lemma PixelSlotsDisjoint(w: nat, i1: nat, j1: nat, i2: nat, j2: nat)
    requires j1 < w && j2 < w && (i1, j1) != (i2, j2)
    ensures PixelOffset(w, i1, j1) + 4 <= PixelOffset(w, i2, j2) ||
            PixelOffset(w, i2, j2) + 4 <= PixelOffset(w, i1, j1)
  {
    if i1 < i2 {
      assert i1 * w + j1 < (i1 + 1) * w <= i2 * w;
    } else if i2 < i1 {
      assert i2 * w + j2 < (i2 + 1) * w <= i1 * w;
    }
  }

  /**
   * The channels of pixel (i, j) after a render: the stored colour if the
   * pixel is painted, the old contents otherwise.
   */
  lemma PictureAtPixel(s: Scene, base: seq<int>, i: nat, j: nat, p: nat)
    requires s.Valid() && |base| == s.BufferSize() && i < s.height && j < s.width && p < 4
    ensures PixelOffset(s.width, i, j) + p < |base|
    ensures Picture(s, base)[PixelOffset(s.width, i, j) + p] ==
      if Paints(s, i, j) then ClampToByte(ChannelValue(PixelColour(s, i, j), p))
      else base[PixelOffset(s.width, i, j) + p]
  {
    PixelOffsetInBounds(s.width, s.height, i, j);
    DecodeChannel(s.width, i, j, p);
  }

  /** Under the skip policy a pixel that reaches the cap keeps its old contents. */
  lemma SkippedPixelKeepsBase(s: Scene, base: seq<int>, i: nat, j: nat, p: nat)
    requires s.Valid() && |base| == s.BufferSize() && i < s.height && j < s.width && p < 4
    requires !s.paintInside && PixelCount(s, i, j) == s.maxIterations
    ensures PixelOffset(s.width, i, j) + p < |base|
    ensures Picture(s, base)[PixelOffset(s.width, i, j) + p] == base[PixelOffset(s.width, i, j) + p]
  {
    PictureAtPixel(s, base, i, j, p);
  }

  /** A pixel that escapes below the cap gets exactly its colour's channels. */
  lemma EscapedPixelGetsColour(s: Scene, base: seq<int>, i: nat, j: nat, p: nat)
    requires s.Valid() && |base| == s.BufferSize() && i < s.height && j < s.width && p < 4
    requires PixelCount(s, i, j) < s.maxIterations
    ensures PixelOffset(s.width, i, j) + p < |base|
    ensures Picture(s, base)[PixelOffset(s.width, i, j) + p] ==
      ClampToByte(ChannelValue(PixelColour(s, i, j), p))
  {
    PictureAtPixel(s, base, i, j, p);
  }

  /**
   * When every pixel is painted, every channel is overwritten: the result
   * does not depend on what the buffer held.
   */
  lemma PaintAllIgnoresBase(s: Scene, base1: seq<int>, base2: seq<int>)
    requires s.Valid() && s.paintInside && |base1| == |base2|
    ensures Picture(s, base1) == Picture(s, base2)
  {
    forall k | 0 <= k < |base1|
      ensures Picture(s, base1)[k] == Picture(s, base2)[k]
    {
    }
  }

  /** A render leaves a buffer of bytes a buffer of bytes. */
  lemma PictureKeepsBytes(s: Scene, base: seq<int>)
    requires s.Valid() && forall k :: 0 <= k < |base| ==> 0 <= base[k] <= 255
    ensures forall k :: 0 <= k < |base| ==> 0 <= Picture(s, base)[k] <= 255
  {
  }

  /** The top-left pixel is the corner (xRange.lo, yRange.lo) of the view. */
  lemma FirstPixelIsCorner(s: Scene)
    requires s.Valid()
    ensures PixelPoint(s, 0, 0) == Point(s.xRange.lo, s.yRange.lo)
  {
  }

  /** Moving right along a row never decreases x when xRange.lo <= xRange.hi. */
  lemma PixelPointMonotone(s: Scene, i: nat, j1: nat, j2: nat)
    requires s.Valid() && s.xRange.lo <= s.xRange.hi && j1 <= j2
    ensures PixelPoint(s, i, j1).x <= PixelPoint(s, i, j2).x
  {
    PlaneCoordMonotone(s.xRange.lo, s.xRange.hi, j1, j2, s.width);
  }

  /** Writes the four channels of colour c, as stored, at offsets ind .. ind + 3. */
  method PaintPixel(image: array<int>, ind: nat, c: Colour)
    requires ind + 4 <= image.Length
    modifies image
    ensures forall k :: 0 <= k < image.Length ==>
      image[k] == if ind <= k < ind + 4 then ClampToByte(ChannelValue(c, k - ind)) else old(image[k])
  {
    for p := 0 to 4
      invariant forall k :: 0 <= k < image.Length ==>
        image[k] == if ind <= k < ind + p then ClampToByte(ChannelValue(c, k - ind)) else old(image[k])
    {
      image[ind + p] := ClampToByte(ChannelValue(c, p));
    }
  }

  /**
   * Inside the slot of pixel (i, j), the channel after a render is that
   * pixel's stored colour channel if it is painted, else what it held.
   */
  lemma ChannelAfterInSlot(s: Scene, i: nat, j: nat, k: nat, prior: int)
    requires s.Valid() && j < s.width
    requires PixelOffset(s.width, i, j) <= k < PixelOffset(s.width, i, j) + 4
    ensures ChannelAfter(s, k, prior) ==
      if Paints(s, i, j) then ClampToByte(ChannelValue(PixelColour(s, i, j), k - PixelOffset(s.width, i, j)))
      else prior
  {
    DecodeChannel(s.width, i, j, k - PixelOffset(s.width, i, j));
  }

  /**
   * The evaluation of pixel (i, j) in the column loop: its plane point, its
   * count and final squared modulus, and whether and in what colour the
   * policy paints it.
   */
  method EvaluatePixel(s: Scene, i: nat, j: nat) returns (paint: bool, colour: Colour)
    requires s.Valid()
    ensures paint == Paints(s, i, j)
    ensures paint ==> colour == PixelColour(s, i, j)
  {
    var x0 := s.xRange.lo + (j as real) * (s.xRange.hi - s.xRange.lo) / (s.width as real);
    assert x0 == PixelPoint(s, i, j).x;
    var y0 := s.yRange.lo + (i as real) * (s.yRange.hi - s.yRange.lo) / (s.height as real);
    assert y0 == PixelPoint(s, i, j).y;
    var numIterations, modulusSq := IterateUntilEscape(x0, y0, s.threshold, s.maxIterations);
    paint := s.paintInside || numIterations != s.maxIterations;
    colour := s.colour(numIterations, modulusSq);
  }

  /** The body of the column loop for pixel (i, j). */
  method RenderPixel(image: array<int>, s: Scene, i: nat, j: nat)
    requires s.Valid() && image.Length == s.BufferSize() && i < s.height && j < s.width
    modifies image
    ensures forall k :: 0 <= k < image.Length ==>
      image[k] == if PixelOffset(s.width, i, j) <= k < PixelOffset(s.width, i, j) + 4
                  then ChannelAfter(s, k, old(image[k])) else old(image[k])
  {
    var paint, colour := EvaluatePixel(s, i, j);
    var ind := i * s.width * 4 + j * 4;
    PixelOffsetInBounds(s.width, s.height, i, j);
    if paint {
      PaintPixel(image, ind, colour);
    }
    forall k | ind <= k < ind + 4
      ensures ChannelAfter(s, k, old(image[k])) ==
        if paint then ClampToByte(ChannelValue(colour, k - ind)) else old(image[k])
    {
      ChannelAfterInSlot(s, i, j, k, old(image[k]));
    }
  }

  /** The column loop of row i. */
  method RenderRow(image: array<int>, s: Scene, i: nat)
    requires s.Valid() && image.Length == s.BufferSize() && i < s.height
    modifies image
    ensures forall k :: 0 <= k < image.Length ==>
      image[k] == if PixelOffset(s.width, i, 0) <= k < PixelOffset(s.width, i + 1, 0)
                  then ChannelAfter(s, k, old(image[k])) else old(image[k])
  {
    for j := 0 to s.width
      invariant forall k :: 0 <= k < image.Length ==>
        image[k] == if PixelOffset(s.width, i, 0) <= k < PixelOffset(s.width, i, j)
                    then ChannelAfter(s, k, old(image[k])) else old(image[k])
    {
      RenderPixel(image, s, i, j);
    }
  }

  /**
   * The renderer: rows top to bottom, columns left to right, each pixel
   * evaluated and, if the policy says so, written. The buffer ends up as
   * the picture of the scene over what it held.
   */
  method Render(image: array<int>, s: Scene)
    requires s.Valid() && image.Length == s.BufferSize()
    modifies image
    ensures image[..] == Picture(s, old(image[..]))
  {
    for i := 0 to s.height
      invariant forall k :: 0 <= k < image.Length ==>
        image[k] == if k < PixelOffset(s.width, i, 0) then ChannelAfter(s, k, old(image[k])) else old(image[k])
    {
      RowsFollowEachOther(s.width, i);
      RenderRow(image, s, i);
    }
    assert PixelOffset(s.width, s.height, 0) == image.Length;
    assert forall k :: 0 <= k < image.Length ==> image[k] == Picture(s, old(image[..]))[k];
  }
}
