/**
 * The escape-time evaluator shared by every renderer of the burning-ship
 * fractal: iterate x' = x^2 - y^2 + x0, y' = 2|xy| + y0 from the origin until
 * x^2 + y^2 reaches a threshold or a cap on the iteration count is reached.
 * Floating point is modelled by exact reals.
 */
module EscapeTime {

  /** A point of the plane, read as the complex number x + iy. */
  datatype Point = Point(x: real, y: real)

  const Origin := Point(0.0, 0.0)

  function Abs(r: real): real {
    if r < 0.0 then -r else r
  }

  /** Squared modulus x^2 + y^2 (the quantity compared with the threshold). */
  function ModulusSq(z: Point): real {
    z.x * z.x + z.y * z.y
  }

  /** One step of the burning-ship recurrence with constant c. */
  function Step(z: Point, c: Point): Point {
    Point(z.x * z.x - z.y * z.y + c.x, 2.0 * Abs(z.x * z.y) + c.y)
  }

  /** The state after n more steps from state z. */
  function Iterate(n: nat, z: Point, c: Point): Point {
    if n == 0 then z else Iterate(n - 1, Step(z, c), c)
  }

  /** The state after n steps from the origin. */
  function Orbit(n: nat, c: Point): Point {
    Iterate(n, Origin, c)
  }

  lemma {:induction false} IterateSucc(n: nat, z: Point, c: Point)
    ensures Iterate(n + 1, z, c) == Step(Iterate(n, z, c), c)
  {
    if n > 0 {
      IterateSucc(n - 1, Step(z, c), c);
    }
  }

  /** Each state of the orbit is one step on from the previous one. */
  lemma {:induction false} OrbitSucc(n: nat, c: Point)
    ensures Orbit(n + 1, c) == Step(Orbit(n, c), c)
  {
    IterateSucc(n, Origin, c);
  }

  /** The squared moduli of the first n states of the orbit. */
  ghost function Moduli(n: nat, c: Point): (ms: seq<real>)
    ensures |ms| == n
  {
    if n == 0 then [] else Moduli(n - 1, c) + [ModulusSq(Orbit(n - 1, c))]
  }

  lemma {:induction false} ModuliAt(n: nat, c: Point, i: nat)
    requires i < n
    ensures Moduli(n, c)[i] == ModulusSq(Orbit(i, c))
  {
    if i < n - 1 {
      ModuliAt(n - 1, c, i);
    }
  }

  lemma {:induction false} ModuliSucc(n: nat, c: Point)
    ensures Moduli(n + 1, c) == Moduli(n, c) + [ModulusSq(Orbit(n, c))]
  {
  }

  /**
   * The first step below n whose state reaches the threshold, or n when
   * there is none. The evaluator stops at the first such step or at the cap,
   * so its count is FirstEscape(maxIterations, ...).
   */
  function FirstEscape(n: nat, c: Point, threshold: real): (k: nat)
    ensures k <= n
  {
    if n == 0 then 0
    else
      var k := FirstEscape(n - 1, c, threshold);
      if k < n - 1 then k
      else if ModulusSq(Orbit(n - 1, c)) >= threshold then n - 1
      else n
  }

  /** The iteration count of point c: the first escaping step, or the cap. */
  function EscapeCount(c: Point, threshold: real, maxIterations: nat): nat {
    FirstEscape(maxIterations, c, threshold)
  }

  lemma {:induction false} FirstEscapeIsFirst(n: nat, c: Point, threshold: real)
    ensures var k := FirstEscape(n, c, threshold);
      (k < n ==> ModulusSq(Orbit(k, c)) >= threshold) &&
      forall i :: 0 <= i < k ==> ModulusSq(Orbit(i, c)) < threshold
  {
    if n > 0 {
      FirstEscapeIsFirst(n - 1, c, threshold);
    }
  }

  /**
   * The count never exceeds the cap, and below the cap the state at the
   * count has reached the threshold.
   */
  lemma {:induction false} EscapeCountEscapes(c: Point, threshold: real, maxIterations: nat)
    ensures EscapeCount(c, threshold, maxIterations) <= maxIterations
    ensures EscapeCount(c, threshold, maxIterations) < maxIterations ==>
      ModulusSq(Orbit(EscapeCount(c, threshold, maxIterations), c)) >= threshold
  {
    FirstEscapeIsFirst(maxIterations, c, threshold);
  }

  /** No state before the count had reached the threshold. */
  lemma {:induction false} EscapeCountIsFirst(c: Point, threshold: real, maxIterations: nat, i: nat)
    requires i < EscapeCount(c, threshold, maxIterations)
    ensures ModulusSq(Orbit(i, c)) < threshold
  {
    FirstEscapeIsFirst(maxIterations, c, threshold);
  }

  /** The three properties above determine the count: any n having them is it. */
  lemma {:induction false} EscapeCountUnique(c: Point, threshold: real, maxIterations: nat, n: nat)
    requires n <= maxIterations
    requires n < maxIterations ==> ModulusSq(Orbit(n, c)) >= threshold
    requires forall i :: 0 <= i < n ==> ModulusSq(Orbit(i, c)) < threshold
    ensures n == EscapeCount(c, threshold, maxIterations)
  {
    var m := EscapeCount(c, threshold, maxIterations);
    EscapeCountEscapes(c, threshold, maxIterations);
    if n < m {
      EscapeCountIsFirst(c, threshold, maxIterations, n);
    }
  }

  /** EscapeCountUnique, with the earlier states given by their moduli. */
  lemma {:induction false} CountFromModuli(c: Point, threshold: real, maxIterations: nat, n: nat)
    requires n <= maxIterations
    requires n < maxIterations ==> ModulusSq(Orbit(n, c)) >= threshold
    requires forall i :: 0 <= i < n ==> Moduli(n, c)[i] < threshold
    ensures n == EscapeCount(c, threshold, maxIterations)
  {
    forall i | 0 <= i < n
      ensures ModulusSq(Orbit(i, c)) < threshold
    {
      ModuliAt(n, c, i);
    }
    EscapeCountUnique(c, threshold, maxIterations, n);
  }

  /** A fixed point of the step stays put. */
  lemma {:induction false} FixedPointStays(n: nat, z: Point, c: Point)
    requires Step(z, c) == z
    ensures Iterate(n, z, c) == z
  {
    if n > 0 {
      FixedPointStays(n - 1, z, c);
    }
  }

  /** The origin never escapes a positive threshold: its count is the cap. */
  lemma {:induction false} OriginNeverEscapes(c: Point, threshold: real, maxIterations: nat)
    requires c == Origin && threshold > 0.0
    ensures EscapeCount(c, threshold, maxIterations) == maxIterations
  {
    var n := EscapeCount(c, threshold, maxIterations);
    EscapeCountEscapes(c, threshold, maxIterations);
    FixedPointStays(n, c, c);
  }

  /**
   * A point already at or beyond the threshold escapes after one step,
   * because the first step from the origin lands on the point itself; the
   * point (2, 2) with threshold 4 is one.
   */
  lemma {:induction false} FarPointEscapesAtOnce(c: Point, threshold: real, maxIterations: nat)
    requires threshold > 0.0 && maxIterations >= 1
    requires ModulusSq(c) >= threshold
    ensures EscapeCount(c, threshold, maxIterations) == 1
  {
    OrbitSucc(0, c);
    EscapeCountUnique(c, threshold, maxIterations, 1);
  }

  /** The loop body's update: x_n = x^2 - y^2 + x0, y_n = 2|xy| + y0. */
  method NextState(x: real, y: real, x0: real, y0: real) returns (xn: real, yn: real)
    ensures Point(xn, yn) == Step(Point(x, y), Point(x0, y0))
  {
    xn := x * x - y * y + x0;
    yn := 2.0 * Abs(x * y) + y0;
  }

  /**
   * The evaluator loop. It returns the iteration count and the squared
   * modulus of the final state; the loop state always equals the orbit.
   */
  method IterateUntilEscape(x0: real, y0: real, threshold: real, maxIterations: nat)
    returns (iteration: nat, modulusSq: real)
    ensures iteration == EscapeCount(Point(x0, y0), threshold, maxIterations)
    ensures iteration <= maxIterations
    ensures modulusSq == ModulusSq(Orbit(iteration, Point(x0, y0)))
    ensures iteration < maxIterations ==> modulusSq >= threshold
  {
    ghost var c := Point(x0, y0);
    var x, y := 0.0, 0.0;
    iteration := 0;
    ghost var seen: seq<real> := [];
    while x * x + y * y < threshold && iteration < maxIterations
      invariant iteration <= maxIterations
      invariant Point(x, y) == Orbit(iteration, c)
      invariant seen == Moduli(iteration, c)
      invariant forall i :: 0 <= i < |seen| ==> seen[i] < threshold
      decreases maxIterations - iteration
    {
      seen := seen + [ModulusSq(Point(x, y))];
      OrbitSucc(iteration, c);
      ModuliSucc(iteration, c);
      x, y := NextState(x, y, x0, y0);
      iteration := iteration + 1;
    }
    modulusSq := x * x + y * y;
    assert modulusSq == ModulusSq(Orbit(iteration, c));
    CountFromModuli(c, threshold, maxIterations, iteration);
  }

  /** Math.sqrt, Math.log and Math.log2, left uninterpreted. */
  datatype MathFns = MathFns(sqrt: real -> real, ln: real -> real, log2: real -> real)

  /** What the model assumes of the square root when a property depends on it. */
  ghost predicate IsSqrt(sqrt: real -> real) {
    forall r :: 0.0 <= r ==> 0.0 <= sqrt(r) && sqrt(r) * sqrt(r) == r
  }

  /** What the model assumes of the natural logarithm: positive above 1. */
  ghost predicate PositiveAboveOne(ln: real -> real) {
    forall r :: r > 1.0 ==> ln(r) > 0.0
  }

  /**
   * The renormalised ("smooth") iteration count n + 1 - log2(ln(distance)):
   * it lies between n and n + 1 whenever log2(ln(distance)) lies in [0, 1].
   */
  function Mu(fns: MathFns, numIterations: nat, escapeDistance: real): (mu: real)
    ensures 0.0 <= fns.log2(fns.ln(escapeDistance)) <= 1.0 ==>
      numIterations as real <= mu <= numIterations as real + 1.0
  {
    numIterations as real + 1.0 - fns.log2(fns.ln(escapeDistance))
  }

  /**
   * The smooth count from the squared modulus the evaluator returns:
   * n + 1 - log2(ln(sqrt(modulusSq))), the distance being its square root.
   */
  function MuOfModulusSq(fns: MathFns, iteration: nat, modulusSq: real): (mu: real)
    ensures mu == Mu(fns, iteration, fns.sqrt(modulusSq))
  {
    iteration as real + 1.0 - fns.log2(fns.ln(fns.sqrt(modulusSq)))
  }

  lemma SquareBelowFour(d: real)
    ensures 0.0 <= d < 2.0 ==> d * d < 4.0
  {
    if 0.0 <= d < 2.0 {
      assert d * d <= d * 2.0;
    }
  }

  /** A non-negative number whose square is at least 4 is at least 2. */
  lemma RootOfAtLeastFour(d: real)
    requires 0.0 <= d && d * d >= 4.0
    ensures d >= 2.0
  {
    SquareBelowFour(d);
  }
}
