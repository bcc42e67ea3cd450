/**
 * The midpoint-displacement bolt of js/lightning.js.
 *
 * `Math.random()` is an oracle: `draws` holds the values it returns, in
 * order, and a call of `generateSegments` at depth n that starts reading at
 * `draws[from]` consumes exactly `Draws(n)` of them, in the order the source
 * asks for them (this level's X offset, this level's Z offset, then every
 * draw of the left recursion, then every draw of the right recursion).
 */
module Lightning {
  import opened Geometry

  function Pow2(n: nat): (r: nat)
    ensures r >= 1
  {
    if n == 0 then 1 else 2 * Pow2(n - 1)
  }

  /** How many `Math.random()` calls `generateSegments` makes at depth n. */
  function Draws(n: nat): nat
  {
    if n == 0 then 0 else 2 + 2 * Draws(n - 1)
  }

  /** Every level but the last draws twice, so depth n draws 2^(n+1) - 2 values. */
  lemma {:induction false} DrawsClosedForm(n: nat)
    ensures Draws(n) == 2 * Pow2(n) - 2
  {
    if n > 0 {
      DrawsClosedForm(n - 1);
    }
  }

  /** Every draw is a value `Math.random()` can return. */
  predicate UnitDraws(draws: seq<real>)
  {
    forall i :: 0 <= i < |draws| ==> 0.0 <= draws[i] < 1.0
  }

  /** `(Math.random() - 0.5) * displacement`. */
  function Offset(draw: real, displacement: real): real
  {
    (draw - 0.5) * displacement
  }

  /** The displaced midpoint of js/lightning.js:9-21: Y is never displaced. */
  function Midpoint(start: Vec3, end: Vec3, displacement: real, dx: real, dz: real): Vec3
  {
    Vec3((start.x + end.x) / 2.0 + Offset(dx, displacement),
         (start.y + end.y) / 2.0,
         (start.z + end.z) / 2.0 + Offset(dz, displacement))
  }

  /**
   * `generateSegments(start, end, displacement, iterations)`: the polyline
   * from `start` to `end`, with the shared midpoint kept once.
   */
  function GenerateSegments(start: Vec3, end: Vec3, displacement: real, iterations: nat, draws: seq<real>, from: nat): (points: seq<Vec3>)
    requires from + Draws(iterations) <= |draws|
    ensures |points| == Pow2(iterations) + 1
    ensures points[0] == start && points[|points| - 1] == end
    decreases iterations
  {
    if iterations == 0 then
      [start, end]
    else
      var mid := Midpoint(start, end, displacement, draws[from], draws[from + 1]);
      var left := GenerateSegments(start, mid, displacement / 2.0, iterations - 1, draws, from + 2);
      var right := GenerateSegments(mid, end, displacement / 2.0, iterations - 1, draws, from + 2 + Draws(iterations - 1));
      left + right[1..]
  }

  /** With no iterations the bolt is the straight segment. */
  lemma NoIterations(start: Vec3, end: Vec3, displacement: real, draws: seq<real>, from: nat)
    requires from <= |draws|
    ensures GenerateSegments(start, end, displacement, 0, draws, from) == [start, end]
  {
  }

  predicate Within(v: real, centre: real, radius: real)
  {
    centre - radius <= v <= centre + radius
  }

  /** m is within r/2 of the exact midpoint of start and end in X and Z. */
  predicate NearMidpoint(m: Vec3, start: Vec3, end: Vec3, r: real)
  {
    && Within(m.x, (start.x + end.x) / 2.0, r / 2.0)
    && Within(m.z, (start.z + end.z) / 2.0, r / 2.0)
  }

  lemma MulNonNegative(x: real, y: real)
    requires x >= 0.0 && y >= 0.0
    ensures x * y >= 0.0
  {
  }

  lemma OffsetBound(draw: real, displacement: real)
    requires 0.0 <= draw < 1.0 && displacement >= 0.0
    ensures Within(Offset(draw, displacement), 0.0, displacement / 2.0)
  {
    MulNonNegative(draw, displacement);
    MulNonNegative(1.0 - draw, displacement);
  }

  /** For draws in [0,1), the displaced midpoint is near the exact one. */
  lemma MidpointNear(start: Vec3, end: Vec3, displacement: real, dx: real, dz: real)
    requires 0.0 <= dx < 1.0 && 0.0 <= dz < 1.0 && displacement >= 0.0
    ensures NearMidpoint(Midpoint(start, end, displacement, dx, dz), start, end, displacement)
  {
    OffsetBound(dx, displacement);
    OffsetBound(dz, displacement);
  }

  /**
   * At depth n > 0 the point at index 2^(n-1) is this level's displaced
   * midpoint: its Y is the exact average, its X and Z are within
   * displacement/2 of the exact midpoint; everything up to it is the left
   * recursion's output (at half the displacement, on the draws after this
   * level's two) and everything after it is the right recursion's output
   * without its first point.
   */
  lemma SplitAtMidpoint(start: Vec3, end: Vec3, displacement: real, n: nat, draws: seq<real>, from: nat)
    requires n > 0 && from + Draws(n) <= |draws| && UnitDraws(draws) && displacement >= 0.0
    ensures var points := GenerateSegments(start, end, displacement, n, draws, from);
            var h := Pow2(n - 1);
            var mid := points[h];
            && mid == Midpoint(start, end, displacement, draws[from], draws[from + 1])
            && mid.y == (start.y + end.y) / 2.0
            && NearMidpoint(mid, start, end, displacement)
            && points[..h + 1] == GenerateSegments(start, mid, displacement / 2.0, n - 1, draws, from + 2)
            && points[h + 1..] == GenerateSegments(mid, end, displacement / 2.0, n - 1, draws, from + 2 + Draws(n - 1))[1..]
  {
    var points := GenerateSegments(start, end, displacement, n, draws, from);
    var mid := Midpoint(start, end, displacement, draws[from], draws[from + 1]);
    var left := GenerateSegments(start, mid, displacement / 2.0, n - 1, draws, from + 2);
    var right := GenerateSegments(mid, end, displacement / 2.0, n - 1, draws, from + 2 + Draws(n - 1));
    assert points == left + right[1..];
    assert points[..Pow2(n - 1) + 1] == left;
    MidpointNear(start, end, displacement, draws[from], draws[from + 1]);
  }

  /** The value i/2^n of the way from a to b. */
  function Lerp(a: real, b: real, i: nat, n: nat): real
  {
    a + (b - a) * ((i as real) / (Pow2(n) as real))
  }

  /**
   * Y is never displaced: point i lies exactly i/2^n of the way from
   * `start` to `end` in Y.
   */
  lemma {:induction false} HeightInterpolates(start: Vec3, end: Vec3, displacement: real, n: nat, draws: seq<real>, from: nat, i: nat)
    requires from + Draws(n) <= |draws| && i <= Pow2(n)
    ensures GenerateSegments(start, end, displacement, n, draws, from)[i].y == Lerp(start.y, end.y, i, n)
    decreases n
  {
    if n > 0 {
      var points := GenerateSegments(start, end, displacement, n, draws, from);
      var h := Pow2(n - 1);
      var mid := Midpoint(start, end, displacement, draws[from], draws[from + 1]);
      var left := GenerateSegments(start, mid, displacement / 2.0, n - 1, draws, from + 2);
      var right := GenerateSegments(mid, end, displacement / 2.0, n - 1, draws, from + 2 + Draws(n - 1));
      assert points == left + right[1..];
      if i <= h {
        assert points[i] == left[i];
        HeightInterpolates(start, mid, displacement / 2.0, n - 1, draws, from + 2, i);
        LerpLeftHalf(start.y, mid.y, end.y, i, n);
      } else {
        assert points[i] == right[i - h];
        HeightInterpolates(mid, end, displacement / 2.0, n - 1, draws, from + 2 + Draws(n - 1), i - h);
        LerpRightHalf(start.y, mid.y, end.y, i, n);
      }
    }
  }

  lemma LerpLeftHalf(a: real, m: real, b: real, i: nat, n: nat)
    requires n > 0 && m == (a + b) / 2.0
    ensures Lerp(a, m, i, n - 1) == Lerp(a, b, i, n)
  {
    var h := Pow2(n - 1) as real;
    assert Pow2(n) as real == 2.0 * h;
    assert (m - a) * (i as real) / h == (b - a) * (i as real) / (2.0 * h);
  }

  lemma LerpRightHalf(a: real, m: real, b: real, i: nat, n: nat)
    requires n > 0 && m == (a + b) / 2.0 && i >= Pow2(n - 1)
    ensures Lerp(m, b, i - Pow2(n - 1), n - 1) == Lerp(a, b, i, n)
  {
    var h := Pow2(n - 1) as real;
    var j := (i - Pow2(n - 1)) as real;
    assert Pow2(n) as real == 2.0 * h;
    assert i as real == h + j;
    assert (b - m) * j / h == (b - a) * j / (2.0 * h);
    assert (b - a) * (h + j) / (2.0 * h) == (b - a) / 2.0 + (b - a) * j / (2.0 * h);
  }

  function Min(a: real, b: real): real { if a <= b then a else b }
  function Max(a: real, b: real): real { if a <= b then b else a }

  /** Every point's Y lies between the endpoints' Y, inclusive. */
  lemma HeightBetweenEnds(start: Vec3, end: Vec3, displacement: real, n: nat, draws: seq<real>, from: nat)
    requires from + Draws(n) <= |draws|
    ensures forall p :: p in GenerateSegments(start, end, displacement, n, draws, from) ==>
              Min(start.y, end.y) <= p.y <= Max(start.y, end.y)
  {
    var points := GenerateSegments(start, end, displacement, n, draws, from);
    forall p | p in points
      ensures Min(start.y, end.y) <= p.y <= Max(start.y, end.y)
    {
      var i :| 0 <= i < |points| && points[i] == p;
      HeightInterpolates(start, end, displacement, n, draws, from, i);
      LerpBetween(start.y, end.y, i, n);
    }
  }

  lemma LerpBetween(a: real, b: real, i: nat, n: nat)
    requires i <= Pow2(n)
    ensures Min(a, b) <= Lerp(a, b, i, n) <= Max(a, b)
  {
    UnitFraction(i as real, Pow2(n) as real);
    Between(a, b, (i as real) / (Pow2(n) as real));
  }

  lemma UnitFraction(i: real, p: real)
    requires 0.0 <= i <= p && p > 0.0
    ensures 0.0 <= i / p <= 1.0
  {
  }

  lemma Between(a: real, b: real, t: real)
    requires 0.0 <= t <= 1.0
    ensures Min(a, b) <= a + (b - a) * t <= Max(a, b)
  {
    if a <= b {
      MulNonNegative(b - a, t);
      MulNonNegative(b - a, 1.0 - t);
    } else {
      MulNonNegative(a - b, t);
      MulNonNegative(a - b, 1.0 - t);
    }
  }

  /** p lies in the X-Z box spanned by a and b, widened by r on every side. */
  predicate NearBox(p: Vec3, a: Vec3, b: Vec3, r: real)
  {
    && Min(a.x, b.x) - r <= p.x <= Max(a.x, b.x) + r
    && Min(a.z, b.z) - r <= p.z <= Max(a.z, b.z) + r
  }

  /** Every point of ps is near the box spanned by a and b, widened by r. */
  predicate AllNearBox(ps: seq<Vec3>, a: Vec3, b: Vec3, r: real)
  {
    forall i :: 0 <= i < |ps| ==> NearBox(ps[i], a, b, r)
  }

  /**
   * X and Z stray from the endpoints' box by at most the initial
   * displacement in total: each level moves its midpoint by at most half its
   * displacement and hands half of it on, and the halves sum to it.
   */
  lemma {:induction false} SpreadBounded(start: Vec3, end: Vec3, displacement: real, n: nat, draws: seq<real>, from: nat)
    requires from + Draws(n) <= |draws| && UnitDraws(draws) && displacement >= 0.0
    ensures AllNearBox(GenerateSegments(start, end, displacement, n, draws, from), start, end, displacement)
    decreases n
  {
    var points := GenerateSegments(start, end, displacement, n, draws, from);
    if n == 0 {
      assert points == [start, end];
      assert NearBox(start, start, end, displacement) && NearBox(end, start, end, displacement);
    } else {
      var mid := Midpoint(start, end, displacement, draws[from], draws[from + 1]);
      var left := GenerateSegments(start, mid, displacement / 2.0, n - 1, draws, from + 2);
      var right := GenerateSegments(mid, end, displacement / 2.0, n - 1, draws, from + 2 + Draws(n - 1));
      assert points == left + right[1..];
      SpreadBounded(start, mid, displacement / 2.0, n - 1, draws, from + 2);
      SpreadBounded(mid, end, displacement / 2.0, n - 1, draws, from + 2 + Draws(n - 1));
      MidpointNear(start, end, displacement, draws[from], draws[from + 1]);
      SpreadStep(left, right, start, mid, end, displacement);
    }
  }

  lemma SpreadStep(left: seq<Vec3>, right: seq<Vec3>, start: Vec3, mid: Vec3, end: Vec3, r: real)
    requires r >= 0.0 && |right| > 0 && NearMidpoint(mid, start, end, r)
    requires AllNearBox(left, start, mid, r / 2.0) && AllNearBox(right, mid, end, r / 2.0)
    ensures AllNearBox(left + right[1..], start, end, r)
  {
    WidenAll(left, start, mid, start, end, r);
    WidenAll(right, mid, end, start, end, r);
    JoinNear(left, right, start, end, r);
  }

  lemma WidenAll(ps: seq<Vec3>, a: Vec3, b: Vec3, start: Vec3, end: Vec3, r: real)
    requires r >= 0.0 && AllNearBox(ps, a, b, r / 2.0)
    requires a == start || NearMidpoint(a, start, end, r)
    requires b == end || NearMidpoint(b, start, end, r)
    ensures AllNearBox(ps, start, end, r)
  {
    forall i | 0 <= i < |ps| ensures NearBox(ps[i], start, end, r) {
      Widen(ps[i], a, b, start, end, r);
    }
  }

  /**
   * A point near the box of (a, b) with half the radius is near the box of
   * (start, end), when a and b are endpoints or displaced midpoints.
   */
  lemma Widen(p: Vec3, a: Vec3, b: Vec3, start: Vec3, end: Vec3, r: real)
    requires r >= 0.0 && NearBox(p, a, b, r / 2.0)
    requires a == start || a == end || NearMidpoint(a, start, end, r)
    requires b == start || b == end || NearMidpoint(b, start, end, r)
    ensures NearBox(p, start, end, r)
  {
  }

  lemma JoinNear(left: seq<Vec3>, right: seq<Vec3>, start: Vec3, end: Vec3, r: real)
    requires AllNearBox(left, start, end, r) && AllNearBox(right, start, end, r) && |right| > 0
    ensures AllNearBox(left + right[1..], start, end, r)
  {
    var ps := left + right[1..];
    forall i | 0 <= i < |ps| ensures NearBox(ps[i], start, end, r) {
      if i >= |left| {
        assert ps[i] == right[i - |left| + 1];
      }
    }
  }

  /** The numbers `createLightningGeometry` pushes for a list of points. */
  function Flatten(points: seq<Vec3>): (v: seq<real>)
    ensures |v| == 3 * |points|
    ensures forall i :: 0 <= i < |points| ==>
              v[3 * i] == points[i].x && v[3 * i + 1] == points[i].y && v[3 * i + 2] == points[i].z
  {
    if points == [] then []
    else
      var p := points[|points| - 1];
      Flatten(points[..|points| - 1]) + [p.x, p.y, p.z]
  }

  lemma FlattenSnoc(points: seq<Vec3>, i: nat)
    requires i < |points|
    ensures Flatten(points[..i + 1]) == Flatten(points[..i]) + [points[i].x, points[i].y, points[i].z]
  {
    assert points[..i + 1][..i] == points[..i];
  }

  /** The depth and initial displacement `createLightningGeometry` uses. */
  const Depth: nat := 5
  const InitialDisplacement: real := 2.0

  /** The source's fixed depth: 33 points from 62 draws. */
  lemma FixedDepth()
    ensures Draws(Depth) == 62 && Pow2(Depth) + 1 == 33
  {
  }

  /**
   * `createLightningGeometry(startPoint, endPoint)`: the bolt of depth 5 and
   * initial displacement 2.0, flattened into x, y, z triples.
   */
  method CreateLightningGeometry(startPoint: Vec3, endPoint: Vec3, draws: seq<real>) returns (vertices: seq<real>)
    requires |draws| == Draws(Depth)
    ensures |vertices| == 99
    ensures vertices == Flatten(GenerateSegments(startPoint, endPoint, InitialDisplacement, Depth, draws, 0))
  {
    var points := GenerateSegments(startPoint, endPoint, InitialDisplacement, Depth, draws, 0);
    vertices := PushCoordinates(points);
    FixedDepth();
  }

  /** The loop of `createLightningGeometry` that pushes each point's x, y, z in turn. */
  method PushCoordinates(points: seq<Vec3>) returns (vertices: seq<real>)
    ensures vertices == Flatten(points)
  {
    vertices := [];
    var i := 0;
    while i < |points|
      invariant 0 <= i <= |points|
      invariant vertices == Flatten(points[..i])
    {
      FlattenSnoc(points, i);
      vertices := vertices + [points[i].x, points[i].y, points[i].z];
      i := i + 1;
    }
    assert points[..i] == points;
  }
}
