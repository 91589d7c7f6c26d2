/** The shape-preserving cubic that draws the usage trend line, over the reals.

    The interpolator is a cubic Hermite curve whose tangents are limited so that no sampled
    point overshoots the two real values it lies between. The methods keep the loops and the
    in-place tangent table of the renderer; the lemmas prove the promise about their output.
 */
module TrendCurve {
  datatype Point = Point(x: real, y: real)

  /** Machine epsilon of a 32-bit float, 2^-23: the smallest width a segment is given. */
  const EPSILON: real := 0.00000011920928955078125

  function Max(a: real, b: real): real { if a >= b then a else b }

  function Abs(a: real): real { if a >= 0.0 then a else -a }

  /** The float sign: zero counts as positive. */
  function Signum(a: real): real { if a >= 0.0 then 1.0 else -1.0 }

  ghost predicate Ascending(p: seq<Point>) {
    forall i :: 0 <= i < |p| - 1 ==> p[i].x < p[i + 1].x
  }

  ghost predicate Between(v: real, a: real, b: real) { a <= v <= b || b <= v <= a }

  /** `v` moved to the nearest value of the interval spanned by 0 and `bound`. */
  function Clamp(v: real, bound: real): real {
    if bound >= 0.0 then
      if v < 0.0 then 0.0 else if v > bound then bound else v
    else
      if v > 0.0 then 0.0 else if v < bound then bound else v
  }

  function Width(left: Point, right: Point): real { Max(right.x - left.x, EPSILON) }

  function SegmentSlope(left: Point, right: Point): real { (right.y - left.y) / Width(left, right) }

  // ---------------------------------------------------------------- tangents

  /** The one-sided three-point derivative estimate at an end anchor. */
  function ThreePoint(endpointWidth: real, adjacentWidth: real, endpointSlope: real, adjacentSlope: real): real
    requires endpointWidth > 0.0 && adjacentWidth > 0.0
  {
    ((2.0 * endpointWidth + adjacentWidth) * endpointSlope - endpointWidth * adjacentSlope)
      / Max(endpointWidth + adjacentWidth, EPSILON)
  }

  /** Multiplying by a positive factor keeps and reflects order. */
  lemma Scale(k: real, x: real, y: real)
    requires k > 0.0
    ensures (k * x <= k * y) == (x <= y)
  {}

  lemma Product(a: real, b: real)
    requires a >= 0.0 && b >= 0.0
    ensures a * b >= 0.0 && (a > 0.0 && b > 0.0 ==> a * b > 0.0)
  {}

  lemma Square(a: real)
    ensures a * a >= 0.0
  {
    if a >= 0.0 { Product(a, a); } else { Product(-a, -a); }
  }

  /** Slopes that agree in direction keep the estimate within twice the end slope. */
  lemma ThreePointAgreeing(h: real, g: real, s: real, r: real)
    requires h > 0.0 && g > 0.0 && s >= 0.0 && r >= 0.0
    ensures ThreePoint(h, g, s, r) <= 2.0 * s
  {
    var d, q := Max(h + g, EPSILON), ThreePoint(h, g, s, r);
    assert d * q == (2.0 * h + g) * s - h * r;
    Product(h, r);
    Product(g, s);
    Product(d - (h + g), s);
    assert d * (2.0 * s) == 2.0 * ((d - (h + g)) * s) + (2.0 * h + g) * s + g * s;
    Scale(d, q, 2.0 * s);
  }

  /** Turning both slopes over turns the estimate over. */
  lemma ThreePointOdd(h: real, g: real, s: real, r: real)
    requires h > 0.0 && g > 0.0
    ensures ThreePoint(h, g, -s, -r) == -ThreePoint(h, g, s, r)
  {
    var d := Max(h + g, EPSILON);
    var n := (2.0 * h + g) * s - h * r;
    assert (2.0 * h + g) * (-s) - h * (-r) == -n;
    assert (-n) / d == -(n / d);
  }

  /** The end tangent is the estimate projected onto the interval from 0 to three end slopes. */
  method EndpointTangent(endpointWidth: real, adjacentWidth: real, endpointSlope: real, adjacentSlope: real)
    returns (tangent: real)
    requires endpointWidth > 0.0 && adjacentWidth > 0.0
    ensures tangent
      == Clamp(ThreePoint(endpointWidth, adjacentWidth, endpointSlope, adjacentSlope), 3.0 * endpointSlope)
  {
    tangent := ((2.0 * endpointWidth + adjacentWidth) * endpointSlope - endpointWidth * adjacentSlope)
      / Max(endpointWidth + adjacentWidth, EPSILON);
    if endpointSlope >= 0.0 && adjacentSlope >= 0.0 {
      ThreePointAgreeing(endpointWidth, adjacentWidth, endpointSlope, adjacentSlope);
    } else if endpointSlope <= 0.0 && adjacentSlope <= 0.0 {
      ThreePointAgreeing(endpointWidth, adjacentWidth, -endpointSlope, -adjacentSlope);
      ThreePointOdd(endpointWidth, adjacentWidth, endpointSlope, adjacentSlope);
    }
    if Signum(tangent) != Signum(endpointSlope) {
      tangent := 0.0;
    } else if Signum(endpointSlope) != Signum(adjacentSlope) && Abs(tangent) > 3.0 * Abs(endpointSlope) {
      tangent := 3.0 * endpointSlope;
    }
  }

  /** Interior tangent: flat at an extremum or beside a flat segment, otherwise the weighted
      harmonic mean of the two slopes, stated without division. */
  ghost predicate IsInteriorTangent(h: real, g: real, before: real, after: real, m: real) {
    if before * after <= 0.0 then m == 0.0
    else ((2.0 * g + h) * after + (g + 2.0 * h) * before) * m == 3.0 * (h + g) * before * after
  }

  function Gaps(p: seq<Point>): (gaps: seq<real>)
    requires |p| >= 1
  {
    seq(|p| - 1, i requires 0 <= i < |p| - 1 => p[i + 1].x - p[i].x)
  }

  function Slopes(p: seq<Point>): (slopes: seq<real>)
    requires |p| >= 1
  {
    seq(|p| - 1, i requires 0 <= i < |p| - 1 => SegmentSlope(p[i], p[i + 1]))
  }

  ghost predicate AllPositive(gaps: seq<real>) { forall i :: 0 <= i < |gaps| ==> gaps[i] > 0.0 }

  /** What every tangent is, given the gaps and slopes of the segments. */
  ghost predicate IsTangentTable(gaps: seq<real>, slopes: seq<real>, m: seq<real>)
    requires |gaps| == |slopes| >= 2 && AllPositive(gaps)
  {
    var n := |slopes|;
    && |m| == n + 1
    && m[0] == Clamp(ThreePoint(gaps[0], gaps[1], slopes[0], slopes[1]), 3.0 * slopes[0])
    && m[n] == Clamp(ThreePoint(gaps[n - 1], gaps[n - 2], slopes[n - 1], slopes[n - 2]), 3.0 * slopes[n - 1])
    && forall i {:trigger m[i]} :: 1 <= i < n ==>
         IsInteriorTangent(gaps[i - 1], gaps[i], slopes[i - 1], slopes[i], m[i])
  }

  /** The tangents of an anchor list; a single segment uses its own slope twice. */
  ghost predicate AreTangents(p: seq<Point>, m: seq<real>)
    requires |p| >= 2 && Ascending(p)
  {
    if |p| == 2 then m == [SegmentSlope(p[0], p[1]), SegmentSlope(p[0], p[1])]
    else IsTangentTable(Gaps(p), Slopes(p), m)
  }

  lemma SameSign(a: real, b: real)
    ensures (a * b <= 0.0) == (a == 0.0 || b == 0.0 || Signum(a) != Signum(b))
  {
    if a > 0.0 && b > 0.0 { assert a * b > 0.0; }
    if a < 0.0 && b < 0.0 { assert (-a) * (-b) > 0.0; }
    if a > 0.0 && b < 0.0 { assert a * (-b) > 0.0; }
    if a < 0.0 && b > 0.0 { assert (-a) * b > 0.0; }
  }

  /** The quotient the code computes satisfies the division-free law of the harmonic mean. */
  lemma HarmonicMean(wb: real, wa: real, before: real, after: real)
    requires wb > 0.0 && wa > 0.0 && before * after > 0.0
    ensures before != 0.0 && after != 0.0 && wb / before + wa / after != 0.0
    ensures (wb * after + wa * before) * ((wb + wa) / (wb / before + wa / after)) == (wb + wa) * before * after
  {
    var u, v := wb / before, wa / after;
    assert u * before == wb && v * after == wa;
    SameSign(before, after);
    if before > 0.0 { assert u > 0.0 && v > 0.0; } else { assert u < 0.0 && v < 0.0; }
    var m := (wb + wa) / (u + v);
    assert m * (u + v) == wb + wa;
    calc {
      (wb * after + wa * before) * m;
      (u * before * after + v * after * before) * m;
      { assert u * before * after + v * after * before == (u + v) * (before * after); }
      (u + v) * (before * after) * m;
      { assert (u + v) * (before * after) * m == (before * after) * (m * (u + v)); }
      (before * after) * (wb + wa);
    }
  }

  method InteriorTangent(beforeWidth: real, afterWidth: real, before: real, after: real) returns (tangent: real)
    requires beforeWidth > 0.0 && afterWidth > 0.0
    ensures IsInteriorTangent(beforeWidth, afterWidth, before, after, tangent)
  {
    SameSign(before, after);
    if before == 0.0 || after == 0.0 || Signum(before) != Signum(after) {
      return 0.0;
    }
    var weightBefore, weightAfter := 2.0 * afterWidth + beforeWidth, afterWidth + 2.0 * beforeWidth;
    HarmonicMean(weightBefore, weightAfter, before, after);
    tangent := (weightBefore + weightAfter) / (weightBefore / before + weightAfter / after);
  }

  method MonotoneTangents(p: seq<Point>) returns (tangents: array<real>)
    requires |p| >= 2 && Ascending(p)
    ensures fresh(tangents) && tangents.Length == |p| && AreTangents(p, tangents[..])
  {
    if |p| == 2 {
      var slope := SegmentSlope(p[0], p[1]);
      tangents := new real[2];
      tangents[0], tangents[1] := slope, slope;
      return;
    }
    tangents := FillTangents(Gaps(p), Slopes(p));
  }

  method FillTangents(gaps: seq<real>, slopes: seq<real>) returns (tangents: array<real>)
    requires |gaps| == |slopes| >= 2 && AllPositive(gaps)
    ensures fresh(tangents) && IsTangentTable(gaps, slopes, tangents[..])
  {
    var last := |slopes|;
    tangents := new real[last + 1](_ => 0.0);
    var first := EndpointTangent(gaps[0], gaps[1], slopes[0], slopes[1]);
    tangents[0] := first;
    var final := EndpointTangent(gaps[last - 1], gaps[last - 2], slopes[last - 1], slopes[last - 2]);
    tangents[last] := final;
    for index := 1 to last
      invariant tangents[0] == first && tangents[last] == final
      invariant forall i {:trigger tangents[i]} :: 1 <= i < index ==>
        IsInteriorTangent(gaps[i - 1], gaps[i], slopes[i - 1], slopes[i], tangents[i])
    {
      var tangent := InteriorTangent(gaps[index - 1], gaps[index], slopes[index - 1], slopes[index]);
      tangents[index] := tangent;
    }
  }

  // ---------------------------------------------------------------- the curve

  /** The three basis cubics of a normalised segment: the rise itself and its two tangents. */
  function Ease(t: real): real { 3.0 * (t * t) - 2.0 * (t * t * t) }

  function Lead(t: real): real { t * t * t - 2.0 * (t * t) + t }

  function Trail(t: real): real { t * t * t - t * t }

  /** The Hermite segment through two anchors at parameter `t`. */
  function Hermite(left: Point, right: Point, m0: real, m1: real, t: real): Point {
    Point(left.x + Width(left, right) * t, Blend(left, right, m0, m1, Ease(t), Lead(t), Trail(t)))
  }

  function Blend(left: Point, right: Point, m0: real, m1: real, ease: real, lead: real, trail: real): real {
    (1.0 - ease) * left.y + lead * Width(left, right) * m0 + ease * right.y + trail * Width(left, right) * m1
  }

  /** The point drawn at `step` of `subdivisions` in segment `i`. */
  function Sample(p: seq<Point>, m: seq<real>, subdivisions: nat, i: nat, step: nat): Point
    requires |m| == |p| && i + 1 < |p| && subdivisions > 0
  {
    Hermite(p[i], p[i + 1], m[i], m[i + 1], step as real / subdivisions as real)
  }

  ghost predicate IsSampledAt(p: seq<Point>, m: seq<real>, subdivisions: nat, curve: seq<Point>, i: nat, step: nat)
    requires |m| == |p| && i + 1 < |p| && subdivisions > 0
  {
    var k := i * subdivisions + step;
    0 <= k < |curve| && curve[k] == Sample(p, m, subdivisions, i, step)
  }

  /** The first anchor, then `subdivisions` samples for each segment, in order. */
  ghost predicate IsSampledCurve(p: seq<Point>, m: seq<real>, subdivisions: nat, curve: seq<Point>, segments: nat)
    requires |m| == |p| && segments < |p| && subdivisions > 0
  {
    && |curve| == segments * subdivisions + 1
    && curve[0] == p[0]
    && forall i, step :: 0 <= i < segments && 1 <= step <= subdivisions ==>
         IsSampledAt(p, m, subdivisions, curve, i, step)
  }

  lemma IndexBound(i: nat, k: nat, n: nat, step: nat)
    requires i < k && step <= n
    ensures i * n + step <= k * n
  {
    ProductOrder(i + 1, k, n);
  }

  lemma ProductOrder(a: nat, b: nat, n: nat)
    requires a <= b
    ensures a * n <= b * n
  {}

  // ---------------------------------------------------------------- what the curve is

  /** A height as a cubic of the parameter. */
  datatype Cubic = Cubic(a0: real, a1: real, a2: real, a3: real)

  function HeightAt(c: Cubic, t: real): real { c.a0 + c.a1 * t + c.a2 * (t * t) + c.a3 * (t * t * t) }

  /** It starts at the left height with the left tangent and ends at the right height with the right
      tangent; tangents are per unit of width, the parameter runs over one width. */
  ghost predicate Joins(c: Cubic, left: Point, right: Point, m0: real, m1: real) {
    var w := if right.x - left.x >= EPSILON then right.x - left.x else EPSILON;
    && c.a0 == left.y && c.a1 == w * m0
    && c.a0 + c.a1 + c.a2 + c.a3 == right.y && c.a1 + 2.0 * c.a2 + 3.0 * c.a3 == w * m1
  }

  function Parameter(step: nat, subdivisions: nat): real
    requires subdivisions > 0
  {
    step as real / subdivisions as real
  }

  /** The sample at `step` lies on this cubic, its share of the width to the right. */
  ghost predicate IsDrawn(c: Cubic, p: seq<Point>, i: nat, subdivisions: nat, step: nat, drawn: Point)
    requires i + 1 < |p| && subdivisions > 0
  {
    var w := if p[i + 1].x - p[i].x >= EPSILON then p[i + 1].x - p[i].x else EPSILON;
    var t := Parameter(step, subdivisions);
    drawn.x == p[i].x + w * t && drawn.y == HeightAt(c, t)
  }

  ghost predicate DrawsAt(c: Cubic, p: seq<Point>, i: nat, subdivisions: nat, curve: seq<Point>, step: nat)
    requires i + 1 < |p| && subdivisions > 0
  {
    var k := i * subdivisions + step;
    0 <= k < |curve| && IsDrawn(c, p, i, subdivisions, step, curve[k])
  }

  ghost predicate Draws(c: Cubic, p: seq<Point>, i: nat, subdivisions: nat, curve: seq<Point>)
    requires i + 1 < |p| && subdivisions > 0
  {
    forall step :: 1 <= step <= subdivisions ==> DrawsAt(c, p, i, subdivisions, curve, step)
  }

  /** Some cubic joins the two anchors of segment `i` and draws it. */
  ghost predicate HasCubic(p: seq<Point>, m: seq<real>, i: nat, subdivisions: nat, curve: seq<Point>)
    requires |m| == |p| && i + 1 < |p| && subdivisions > 0
  {
    exists c :: Joins(c, p[i], p[i + 1], m[i], m[i + 1]) && Draws(c, p, i, subdivisions, curve)
  }

  /** The first anchor, then segment by segment the cubic that joins two anchors with their tangents. */
  ghost predicate IsSpline(p: seq<Point>, m: seq<real>, subdivisions: nat, curve: seq<Point>)
    requires |m| == |p| >= 2 && subdivisions > 0
  {
    && |curve| == (|p| - 1) * subdivisions + 1 && curve[0] == p[0]
    && forall i :: 0 <= i < |p| - 1 ==> HasCubic(p, m, i, subdivisions, curve)
  }

  /** There is one such cubic. */
  lemma JoinIsUnique(c: Cubic, d: Cubic, left: Point, right: Point, m0: real, m1: real)
    requires Joins(c, left, right, m0, m1) && Joins(d, left, right, m0, m1)
    ensures c == d
  {}

  /** The coefficients of that cubic. */
  ghost function CubicOf(left: Point, right: Point, m0: real, m1: real): Cubic {
    var a, b, d := Width(left, right) * m0, Width(left, right) * m1, right.y - left.y;
    Cubic(left.y, a, 3.0 * d - 2.0 * a - b, a + b - 2.0 * d)
  }

  lemma CubicJoins(left: Point, right: Point, m0: real, m1: real)
    ensures Joins(CubicOf(left, right, m0, m1), left, right, m0, m1)
  {}

  lemma HermiteIsCubic(left: Point, right: Point, m0: real, m1: real, t: real)
    ensures Hermite(left, right, m0, m1, t).y == HeightAt(CubicOf(left, right, m0, m1), t)
  {
    var w := Width(left, right);
    BlendRegrouped(left.y, right.y, w, m0, m1, Ease(t), Lead(t), Trail(t));
    BlendExpanded(left.y, right.y - left.y, w * m0, w * m1, t, t * t, t * t * t);
  }

  lemma BlendRegrouped(l: real, r: real, w: real, m0: real, m1: real, ease: real, lead: real, trail: real)
    ensures (1.0 - ease) * l + lead * w * m0 + ease * r + trail * w * m1
      == l + ease * (r - l) + lead * (w * m0) + trail * (w * m1)
  {
    assert lead * w * m0 == lead * (w * m0);
    assert trail * w * m1 == trail * (w * m1);
    assert (1.0 - ease) * l == l - ease * l;
    assert ease * (r - l) == ease * r - ease * l;
  }

  lemma BlendExpanded(l: real, d: real, a: real, b: real, t: real, t2: real, t3: real)
    ensures l + (3.0 * t2 - 2.0 * t3) * d + (t3 - 2.0 * t2 + t) * a + (t3 - t2) * b
      == l + a * t + (3.0 * d - 2.0 * a - b) * t2 + (a + b - 2.0 * d) * t3
  {}

  lemma SampleIsDrawn(p: seq<Point>, m: seq<real>, subdivisions: nat, i: nat, step: nat)
    requires |m| == |p| && i + 1 < |p| && subdivisions > 0
    ensures IsDrawn(CubicOf(p[i], p[i + 1], m[i], m[i + 1]), p, i, subdivisions, step,
                    Sample(p, m, subdivisions, i, step))
  {
    HermiteIsCubic(p[i], p[i + 1], m[i], m[i + 1], Parameter(step, subdivisions));
  }

  lemma SegmentIsDrawn(p: seq<Point>, m: seq<real>, subdivisions: nat, curve: seq<Point>, i: nat)
    requires |m| == |p| && i + 1 < |p| && subdivisions > 0 && IsSampledCurve(p, m, subdivisions, curve, |p| - 1)
    ensures HasCubic(p, m, i, subdivisions, curve)
  {
    var c := CubicOf(p[i], p[i + 1], m[i], m[i + 1]);
    CubicJoins(p[i], p[i + 1], m[i], m[i + 1]);
    forall step: nat | 1 <= step <= subdivisions ensures DrawsAt(c, p, i, subdivisions, curve, step) {
      assert IsSampledAt(p, m, subdivisions, curve, i, step);
      SampleIsDrawn(p, m, subdivisions, i, step);
    }
    assert Draws(c, p, i, subdivisions, curve);
    assert Joins(c, p[i], p[i + 1], m[i], m[i + 1]);
  }

  lemma SampledIsSpline(p: seq<Point>, m: seq<real>, subdivisions: nat, curve: seq<Point>)
    requires |m| == |p| >= 2 && subdivisions > 0 && IsSampledCurve(p, m, subdivisions, curve, |p| - 1)
    ensures IsSpline(p, m, subdivisions, curve)
  {
    forall i | 0 <= i < |p| - 1 ensures HasCubic(p, m, i, subdivisions, curve) {
      SegmentIsDrawn(p, m, subdivisions, curve, i);
    }
  }

  method MonotoneCubicCurve(p: seq<Point>, subdivisions: nat) returns (curve: seq<Point>, ghost m: seq<real>)
    requires Ascending(p)
    ensures |p| < 2 || subdivisions == 0 ==> curve == p
    ensures |p| >= 2 && subdivisions > 0 ==>
      && AreTangents(p, m) && |m| == |p|
      && IsSampledCurve(p, m, subdivisions, curve, |p| - 1) && IsSpline(p, m, subdivisions, curve)
  {
    if |p| < 2 || subdivisions == 0 {
      return p, [];
    }
    var tangents := MonotoneTangents(p);
    m := tangents[..];
    curve := SampleSegments(p, subdivisions, tangents);
  }

  method SampleSegments(p: seq<Point>, subdivisions: nat, tangents: array<real>) returns (curve: seq<Point>)
    requires |p| == tangents.Length >= 2 && subdivisions > 0
    ensures IsSampledCurve(p, tangents[..], subdivisions, curve, |p| - 1)
    ensures IsSpline(p, tangents[..], subdivisions, curve)
  {
    ghost var m := tangents[..];
    curve := [p[0]];
    for index := 0 to |p| - 1
      invariant IsSampledCurve(p, m, subdivisions, curve, index)
    {
      ghost var done := curve;
      for step := 1 to subdivisions + 1
        invariant |curve| == index * subdivisions + step && done <= curve
        invariant forall k :: 1 <= k < step ==>
          curve[index * subdivisions + k] == Sample(p, m, subdivisions, index, k)
      {
        var t := step as real / subdivisions as real;
        curve := curve + [Hermite(p[index], p[index + 1], tangents[index], tangents[index + 1], t)];
      }
      SegmentAppended(p, m, subdivisions, done, curve, index);
    }
    SampledIsSpline(p, m, subdivisions, curve);
  }

  lemma SegmentAppended(p: seq<Point>, m: seq<real>, subdivisions: nat, before: seq<Point>, after: seq<Point>,
                        index: nat)
    requires |m| == |p| && index + 1 < |p| && subdivisions > 0
    requires IsSampledCurve(p, m, subdivisions, before, index) && before <= after
    requires |after| == index * subdivisions + subdivisions + 1
    requires forall k :: 1 <= k <= subdivisions ==>
      after[index * subdivisions + k] == Sample(p, m, subdivisions, index, k)
    ensures IsSampledCurve(p, m, subdivisions, after, index + 1)
  {
    forall i: nat, step: nat | i < index + 1 && 1 <= step <= subdivisions
      ensures IsSampledAt(p, m, subdivisions, after, i, step)
    {
      if i < index {
        assert IsSampledAt(p, m, subdivisions, before, i, step);
        IndexBound(i, index, subdivisions, step);
      }
    }
  }

  // ---------------------------------------------------------------- the promise

  /** A tangent that stays between 0 and three times a segment's slope. */
  ghost predicate Admissible(m: real, slope: real) { Between(m, 0.0, 3.0 * slope) }

  lemma InteriorAdmissible(h: real, g: real, b: real, a: real, m: real)
    requires h > 0.0 && g > 0.0 && IsInteriorTangent(h, g, b, a, m)
    ensures Admissible(m, b) && Admissible(m, a)
  {
    SameSign(b, a);
    if b * a > 0.0 {
      if b > 0.0 {
        HarmonicBound(h, g, b, a, m);
        HarmonicBound(g, h, a, b, m);
      } else {
        HarmonicBound(h, g, -b, -a, -m);
        HarmonicBound(g, h, -a, -b, -m);
      }
    }
  }

  lemma HarmonicBound(h: real, g: real, b: real, a: real, m: real)
    requires h > 0.0 && g > 0.0 && b > 0.0 && a > 0.0
    requires ((2.0 * g + h) * a + (g + 2.0 * h) * b) * m == 3.0 * (h + g) * b * a
    ensures 0.0 <= m <= 3.0 * b
  {
    var u, v, n := (2.0 * g + h) * a, (g + 2.0 * h) * b, b * a;
    Product(2.0 * g + h, a);
    Product(g + 2.0 * h, b);
    Product(b, a);
    Product(h + g, n);
    Product(g, n);
    Product(v, b);
    assert (u + v) * m == 3.0 * ((h + g) * n);
    assert (u + v) * (3.0 * b) == 3.0 * (u * b) + 3.0 * (v * b);
    assert u * b == (h + g) * n + g * n;
    Scale(u + v, 0.0, m);
    Scale(u + v, m, 3.0 * b);
  }

  /** Both tangents of every segment stay within three slopes of it: first, last, interior
      anchors, flat neighbours and the two-anchor list alike. */
  lemma TangentsAdmissible(p: seq<Point>, m: seq<real>, i: nat)
    requires |p| >= 2 && Ascending(p) && AreTangents(p, m) && i + 1 < |p|
    ensures |m| == |p|
    ensures Admissible(m[i], SegmentSlope(p[i], p[i + 1])) && Admissible(m[i + 1], SegmentSlope(p[i], p[i + 1]))
  {
    if |p| > 2 {
      TableAdmissible(Gaps(p), Slopes(p), m, i);
      assert Slopes(p)[i] == SegmentSlope(p[i], p[i + 1]);
    }
  }

  lemma TableAdmissible(gaps: seq<real>, slopes: seq<real>, m: seq<real>, i: nat)
    requires |gaps| == |slopes| >= 2 && AllPositive(gaps) && IsTangentTable(gaps, slopes, m) && i < |slopes|
    ensures Admissible(m[i], slopes[i]) && Admissible(m[i + 1], slopes[i])
  {
    if i > 0 { InteriorAdmissible(gaps[i - 1], gaps[i], slopes[i - 1], slopes[i], m[i]); }
    if i + 1 < |slopes| { InteriorAdmissible(gaps[i], gaps[i + 1], slopes[i], slopes[i + 1], m[i + 1]); }
  }

  /** With both scaled tangents at 0 or 3 the rise is one of four monotone cubics. */
  lemma CornersMonotone(s: real, t: real)
    requires 0.0 <= s <= t <= 1.0
    ensures Ease(s) <= Ease(t)
    ensures Ease(s) + 3.0 * Lead(s) <= Ease(t) + 3.0 * Lead(t)
    ensures Ease(s) + 3.0 * Trail(s) <= Ease(t) + 3.0 * Trail(t)
    ensures Ease(s) + 3.0 * Lead(s) + 3.0 * Trail(s) <= Ease(t) + 3.0 * Lead(t) + 3.0 * Trail(t)
  {
    var d, q := t - s, t * t + t * s + s * s;
    CubeDifference(s, t);
    FactorsNonNegative(s, t);
    Product(d, q);
    Product(d, 3.0 * (t + s) - 2.0 * q);
    Product(d, q - 3.0 * (t + s) + 3.0);
    Product(d, 4.0 * q - 6.0 * (t + s) + 3.0);
    assert t * t - s * s == d * (t + s);
    assert d * (3.0 * (t + s) - 2.0 * q) == 3.0 * (d * (t + s)) - 2.0 * (d * q);
    assert d * (q - 3.0 * (t + s) + 3.0) == d * q - 3.0 * (d * (t + s)) + 3.0 * d;
    assert d * (4.0 * q - 6.0 * (t + s) + 3.0) == 4.0 * (d * q) - 6.0 * (d * (t + s)) + 3.0 * d;
  }

  lemma FactorsNonNegative(s: real, t: real)
    requires 0.0 <= s <= t <= 1.0
    ensures var q := t * t + t * s + s * s;
      q >= 0.0 && 3.0 * (t + s) - 2.0 * q >= 0.0 && q - 3.0 * (t + s) + 3.0 >= 0.0
        && 4.0 * q - 6.0 * (t + s) + 3.0 >= 0.0
  {
    ProductExpanded(t, t);
    ProductExpanded(s, s);
    ProductExpanded(t, s);
    ProductExpanded(s, t);
    SquareOfSum(t, s);
    SquareOfDifference(t, s);
    assert 4.0 * (t * t + t * s + s * s) - 6.0 * (t + s) + 3.0
      == 3.0 * (t * t + s * s + 2.0 * (t * s) - 2.0 * t - 2.0 * s + 1.0) + (t * t + s * s - 2.0 * (t * s));
  }

  lemma SquareOfSum(t: real, s: real)
    ensures t * t + s * s + 2.0 * (t * s) - 2.0 * t - 2.0 * s + 1.0 >= 0.0
  {
    Square(t + s - 1.0);
    assert (t + s - 1.0) * (t + s - 1.0) == t * t + s * s + 2.0 * (t * s) - 2.0 * t - 2.0 * s + 1.0;
  }

  lemma SquareOfDifference(t: real, s: real)
    ensures t * t + s * s - 2.0 * (t * s) >= 0.0
  {
    Square(t - s);
    assert (t - s) * (t - s) == t * t + s * s - 2.0 * (t * s);
  }

  lemma ProductExpanded(a: real, b: real)
    requires 0.0 <= a <= 1.0 && 0.0 <= b <= 1.0
    ensures a * b >= 0.0 && a - a * b >= 0.0 && 1.0 - a - b + a * b >= 0.0
  {
    Product(a, b);
    Product(a, 1.0 - b);
    Product(1.0 - a, 1.0 - b);
    assert a * (1.0 - b) == a - a * b && (1.0 - a) * (1.0 - b) == 1.0 - a - b + a * b;
  }

  lemma CubeDifference(s: real, t: real)
    ensures t * t * t - s * s * s == (t - s) * (t * t + t * s + s * s)
  {}

  /** The rise is affine in each scaled tangent, so order at the four corners is order inside. */
  lemma CornerOrder(a: real, b: real, c: real, u: real, v: real, c': real, u': real, v': real)
    requires 0.0 <= a <= 3.0 && 0.0 <= b <= 3.0
    requires c <= c' && c + 3.0 * u <= c' + 3.0 * u' && c + 3.0 * v <= c' + 3.0 * v'
    requires c + 3.0 * u + 3.0 * v <= c' + 3.0 * u' + 3.0 * v'
    ensures c + a * u + b * v <= c' + a * u' + b * v'
  {
    var dc, du, dv := c' - c, u' - u, v' - v;
    assert a * u' - a * u == a * du && b * v' - b * v == b * dv;
    // Linear in b between dc + a*du and dc + a*du + 3*dv.
    EndsNonNegative(a, dc, du);
    EndsNonNegative(a, dc + 3.0 * dv, du);
    EndsNonNegative(b, dc + a * du, dv);
  }

  lemma EndsNonNegative(k: real, c: real, d: real)
    requires 0.0 <= k <= 3.0 && c >= 0.0 && c + 3.0 * d >= 0.0
    ensures c + k * d >= 0.0
  {
    if d >= 0.0 {
      Product(k, d);
    } else {
      Product(3.0 - k, -d);
      assert (3.0 - k) * (-d) == k * d - 3.0 * d;
    }
  }

  /** A Hermite segment is its left value plus the rise times a normalised cubic. */
  lemma BlendIsRise(left: Point, right: Point, m0: real, m1: real, a: real, b: real, c: real, u: real, v: real)
    requires Width(left, right) * m0 == a * (right.y - left.y) && Width(left, right) * m1 == b * (right.y - left.y)
    ensures Blend(left, right, m0, m1, c, u, v) == left.y + (right.y - left.y) * (c + a * u + b * v)
  {
    var w := Width(left, right);
    assert u * w * m0 == u * (w * m0) && v * w * m1 == v * (w * m1);
  }

  /** An admissible tangent, scaled by width over rise, lies in [0, 3]. */
  lemma ScaledTangent(left: Point, right: Point, m: real) returns (a: real)
    requires Admissible(m, SegmentSlope(left, right))
    ensures 0.0 <= a <= 3.0 && Width(left, right) * m == a * (right.y - left.y)
  {
    var w, d, s := Width(left, right), right.y - left.y, SegmentSlope(left, right);
    assert w * s == d;
    Scale(w, s, 0.0);
    Scale(w, 0.0, s);
    if s == 0.0 {
      a := 0.0;
    } else {
      a := m / s;
      assert s * a == m;
      assert w * m == a * (w * s);
      if s > 0.0 {
        Scale(s, 0.0, a);
        Scale(s, a, 3.0);
      } else {
        Scale(-s, 0.0, a);
        Scale(-s, a, 3.0);
      }
    }
  }

  /** Along one segment the height moves one way only, from the left value to the right one. */
  lemma SegmentIsMonotone(p: seq<Point>, m: seq<real>, i: nat, s: real, t: real)
    requires |p| >= 2 && Ascending(p) && AreTangents(p, m) && |m| == |p| && i + 1 < |p|
    requires 0.0 <= s <= t <= 1.0
    ensures p[i].y <= p[i + 1].y ==>
      Hermite(p[i], p[i + 1], m[i], m[i + 1], s).y <= Hermite(p[i], p[i + 1], m[i], m[i + 1], t).y
    ensures p[i].y >= p[i + 1].y ==>
      Hermite(p[i], p[i + 1], m[i], m[i + 1], s).y >= Hermite(p[i], p[i + 1], m[i], m[i + 1], t).y
  {
    TangentsAdmissible(p, m, i);
    CornersMonotone(s, t);
    BlendMonotone(p[i], p[i + 1], m[i], m[i + 1], Ease(s), Lead(s), Trail(s), Ease(t), Lead(t), Trail(t));
  }

  lemma BlendMonotone(left: Point, right: Point, m0: real, m1: real,
                      c: real, u: real, v: real, c': real, u': real, v': real)
    requires Admissible(m0, SegmentSlope(left, right)) && Admissible(m1, SegmentSlope(left, right))
    requires c <= c' && c + 3.0 * u <= c' + 3.0 * u' && c + 3.0 * v <= c' + 3.0 * v'
    requires c + 3.0 * u + 3.0 * v <= c' + 3.0 * u' + 3.0 * v'
    ensures left.y <= right.y ==> Blend(left, right, m0, m1, c, u, v) <= Blend(left, right, m0, m1, c', u', v')
    ensures left.y >= right.y ==> Blend(left, right, m0, m1, c, u, v) >= Blend(left, right, m0, m1, c', u', v')
  {
    var a := ScaledTangent(left, right, m0);
    var b := ScaledTangent(left, right, m1);
    BlendIsRise(left, right, m0, m1, a, b, c, u, v);
    BlendIsRise(left, right, m0, m1, a, b, c', u', v');
    CornerOrder(a, b, c, u, v, c', u', v');
    LiftOrder(left.y, right.y - left.y, c + a * u + b * v, c' + a * u' + b * v');
  }

  lemma LiftOrder(base: real, d: real, x: real, y: real)
    requires x <= y
    ensures d >= 0.0 ==> base + d * x <= base + d * y
    ensures d <= 0.0 ==> base + d * x >= base + d * y
  {
    if d > 0.0 { Scale(d, x, y); }
    if d < 0.0 { Scale(-d, x, y); }
  }

  /** The curve never leaves the range of the two real values around it. */
  lemma SegmentStaysInRange(p: seq<Point>, m: seq<real>, i: nat, t: real)
    requires |p| >= 2 && Ascending(p) && AreTangents(p, m) && |m| == |p| && i + 1 < |p|
    requires 0.0 <= t <= 1.0
    ensures Between(Hermite(p[i], p[i + 1], m[i], m[i + 1], t).y, p[i].y, p[i + 1].y)
  {
    SegmentIsMonotone(p, m, i, 0.0, t);
    SegmentIsMonotone(p, m, i, t, 1.0);
    SegmentEnds(p[i], p[i + 1], m[i], m[i + 1]);
  }

  lemma StepFraction(step: nat, subdivisions: nat)
    requires 1 <= step <= subdivisions
    ensures 0.0 <= step as real / subdivisions as real <= 1.0
    ensures subdivisions as real / subdivisions as real == 1.0
  {
    var t, n := step as real / subdivisions as real, subdivisions as real;
    assert n * t == step as real;
    Scale(n, t, 1.0);
    Scale(n, 0.0, t);
  }

  lemma SegmentEnds(left: Point, right: Point, m0: real, m1: real)
    ensures Hermite(left, right, m0, m1, 0.0) == left
    ensures Hermite(left, right, m0, m1, 1.0).y == right.y
    ensures Hermite(left, right, m0, m1, 1.0) == right <==> right.x - left.x >= EPSILON
  {}

  lemma SampleInRange(p: seq<Point>, m: seq<real>, subdivisions: nat, i: nat, step: nat)
    requires |p| >= 2 && Ascending(p) && AreTangents(p, m) && |m| == |p| && i + 1 < |p| && 1 <= step <= subdivisions
    ensures Between(Sample(p, m, subdivisions, i, step).y, p[i].y, p[i + 1].y)
  {
    StepFraction(step, subdivisions);
    SegmentStaysInRange(p, m, i, step as real / subdivisions as real);
  }

  lemma LastSample(p: seq<Point>, m: seq<real>, subdivisions: nat, i: nat)
    requires |m| == |p| && i + 1 < |p| && 1 <= subdivisions
    ensures var last := Sample(p, m, subdivisions, i, subdivisions);
      last.y == p[i + 1].y && (last == p[i + 1] <==> p[i + 1].x - p[i].x >= EPSILON)
  {
    StepFraction(subdivisions, subdivisions);
    SegmentEnds(p[i], p[i + 1], m[i], m[i + 1]);
  }

  /** Every drawn point lies in its segment's range, and the last sample of each segment has the
      anchor's exact height; it is the anchor itself exactly when the gap is not below epsilon. */
  lemma CurveFollowsAnchors(p: seq<Point>, subdivisions: nat, curve: seq<Point>, m: seq<real>, i: nat, step: nat)
    requires |p| >= 2 && Ascending(p) && subdivisions > 0 && AreTangents(p, m) && |m| == |p|
    requires IsSampledCurve(p, m, subdivisions, curve, |p| - 1)
    requires i + 1 < |p| && 1 <= step <= subdivisions
    ensures 0 <= i * subdivisions + step < |curve| && 0 <= i * subdivisions + subdivisions < |curve|
    ensures Between(curve[i * subdivisions + step].y, p[i].y, p[i + 1].y)
    ensures curve[i * subdivisions + subdivisions].y == p[i + 1].y
    ensures curve[i * subdivisions + subdivisions] == p[i + 1] <==> p[i + 1].x - p[i].x >= EPSILON
  {
    assert IsSampledAt(p, m, subdivisions, curve, i, step) && IsSampledAt(p, m, subdivisions, curve, i, subdivisions);
    SampleInRange(p, m, subdivisions, i, step);
    LastSample(p, m, subdivisions, i);
  }
}
