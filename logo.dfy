/**
 * The extruded "V" mesh of `createVVertices` in js/main.js: sixteen
 * triangles, each pushed by the inner `addTriangle` as three vertices of six
 * numbers (position, then the face's unit normal).
 *
 * `Math.sqrt` is an oracle `sqrt` passed in by the caller; `IsSqrt` states
 * what is assumed of it.
 */
module Logo {
  import opened Geometry

  /** `depth` and `scale` of js/main.js:60-61. */
  const Depth: real := 0.3
  const Scale: real := 0.6

  /** The six outline points of js/main.js:87-94, in the source's order. */
  const Outline: seq<(real, real)> := [
    (-1.5 * Scale, 1.0 * Scale),   // 0: top left outer
    (-0.5 * Scale, 1.0 * Scale),   // 1: top left inner
    (-0.2 * Scale, -1.0 * Scale),  // 2: bottom centre left
    (1.5 * Scale, 1.0 * Scale),    // 3: top right outer
    (0.5 * Scale, 1.0 * Scale),    // 4: top right inner
    (0.2 * Scale, -1.0 * Scale)    // 5: bottom centre right
  ]

  /** Outline point i on the front (z = depth/2) or back (z = -depth/2) face. */
  function Corner(i: nat, front: bool): Vec3
    requires i < |Outline|
  {
    Vec3(Outline[i].0, Outline[i].1, if front then Depth / 2.0 else -Depth / 2.0)
  }

  datatype Triangle = Triangle(p1: Vec3, p2: Vec3, p3: Vec3)

  /** The unnormalised normal (nx, ny, nz) of js/main.js:68-73. */
  function FaceNormal(t: Triangle): Vec3
  {
    Cross(Sub(t.p2, t.p1), Sub(t.p3, t.p1))
  }

  function SqNorm(v: Vec3): real
  {
    Dot(v, v)
  }

  ghost predicate IsSqrt(sqrt: real -> real)
  {
    forall x :: 0.0 <= x ==> 0.0 <= sqrt(x) && sqrt(x) * sqrt(x) == x
  }

  /** `len` of js/main.js:76. */
  function Length(t: Triangle, sqrt: real -> real): real
  {
    sqrt(SqNorm(FaceNormal(t)))
  }

  /** `normal` of js/main.js:77: each component divided by `len`. */
  function UnitNormal(t: Triangle, sqrt: real -> real): Vec3
    requires Length(t, sqrt) != 0.0
  {
    var n := FaceNormal(t);
    var len := Length(t, sqrt);
    Vec3(n.x / len, n.y / len, n.z / len)
  }

  /** The 18 numbers `addTriangle` pushes: p1, n, p2, n, p3, n. */
  function Record(t: Triangle, n: Vec3): seq<real>
  {
    [t.p1.x, t.p1.y, t.p1.z, n.x, n.y, n.z,
     t.p2.x, t.p2.y, t.p2.z, n.x, n.y, n.z,
     t.p3.x, t.p3.y, t.p3.z, n.x, n.y, n.z]
  }

  /** Vertex j (0, 1 or 2) of a triangle. */
  function Vertex(t: Triangle, j: nat): Vec3
    requires j < 3
  {
    if j == 0 then t.p1 else if j == 1 then t.p2 else t.p3
  }

  /** The triangle's normal is well defined: `len` is not zero. */
  predicate Normalisable(t: Triangle, sqrt: real -> real)
  {
    Length(t, sqrt) != 0.0
  }

  /** What `addTriangle` appends, triangle after triangle. */
  function Mesh(tris: seq<Triangle>, sqrt: real -> real): (r: seq<real>)
    requires forall k :: 0 <= k < |tris| ==> Normalisable(tris[k], sqrt)
    ensures |r| == 18 * |tris|
  {
    if tris == [] then []
    else
      var last := tris[|tris| - 1];
      assert Normalisable(last, sqrt);
      Mesh(tris[..|tris| - 1], sqrt) + Record(last, UnitNormal(last, sqrt))
  }

  /**
   * Triangle k's 18 numbers are the slice [18k, 18k + 18) of the mesh: the
   * earlier triangles' numbers are never disturbed by later pushes.
   */
  lemma {:induction false} MeshLayout(tris: seq<Triangle>, sqrt: real -> real, k: nat)
    requires forall i :: 0 <= i < |tris| ==> Normalisable(tris[i], sqrt)
    requires k < |tris|
    ensures Mesh(tris, sqrt)[18 * k .. 18 * k + 18] == Record(tris[k], UnitNormal(tris[k], sqrt))
  {
    var init := tris[..|tris| - 1];
    var last := tris[|tris| - 1];
    var rest := Mesh(init, sqrt);
    var rec := Record(last, UnitNormal(last, sqrt));
    assert Mesh(tris, sqrt) == rest + rec;
    if k < |tris| - 1 {
      assert tris[k] == init[k];
      MeshLayout(init, sqrt, k);
      SliceOfJoinLeft(rest, rec, 18 * k, 18 * k + 18);
    } else {
      assert (rest + rec)[|rest|..] == rec;
    }
  }

  lemma SliceOfJoinLeft<T>(a: seq<T>, b: seq<T>, lo: nat, hi: nat)
    requires lo <= hi <= |a|
    ensures (a + b)[lo..hi] == a[lo..hi]
  {
  }

  /** Record's layout: p1, n, p2, n, p3, n, the same normal on every vertex. */
  lemma RecordLayout(t: Triangle, n: Vec3, j: nat)
    requires j < 3
    ensures var r := Record(t, n);
            var v := Vertex(t, j);
            && |r| == 18
            && r[6 * j] == v.x && r[6 * j + 1] == v.y && r[6 * j + 2] == v.z
            && r[6 * j + 3] == n.x && r[6 * j + 4] == n.y && r[6 * j + 5] == n.z
  {
  }

  /**
   * The normal `addTriangle` stores is a unit vector, orthogonal to both
   * edges from p1, and points the same way as the unnormalised cross
   * product, so the winding order decides the side it faces.
   */
  lemma UnitNormalProperties(t: Triangle, sqrt: real -> real)
    requires IsSqrt(sqrt) && SqNorm(FaceNormal(t)) > 0.0
    ensures Normalisable(t, sqrt)
    ensures var u := UnitNormal(t, sqrt);
            && Dot(u, Sub(t.p2, t.p1)) == 0.0 && Dot(u, Sub(t.p3, t.p1)) == 0.0
            && SqNorm(u) == 1.0
            && Dot(u, FaceNormal(t)) > 0.0
  {
    var n := FaceNormal(t);
    var len := Length(t, sqrt);
    assert len * len == Dot(n, n) && len >= 0.0;
    CrossOrthogonal(Sub(t.p2, t.p1), Sub(t.p3, t.p1));
    Normalised(n, len, Sub(t.p2, t.p1));
    Normalised(n, len, Sub(t.p3, t.p1));
  }

  /**
   * Dividing a non-zero vector by its length gives a unit vector in the
   * same direction, orthogonal to whatever the vector is orthogonal to.
   */
  lemma Normalised(n: Vec3, len: real, w: Vec3)
    requires len * len == Dot(n, n) && len >= 0.0 && Dot(n, n) > 0.0
    ensures len != 0.0
    ensures var u := Vec3(n.x / len, n.y / len, n.z / len);
            && Dot(u, u) == 1.0 && Dot(u, n) > 0.0
            && (Dot(n, w) == 0.0 ==> Dot(u, w) == 0.0)
  {
    var k := 1.0 / len;
    var u := Vec3(n.x / len, n.y / len, n.z / len);
    assert u == ScaleBy(n, k);
    DotScale(n, k, w);
    DotScale(n, k, n);
    DotScale(n, k, u);
    assert Dot(n, u) == Dot(u, n);
    assert k * len == 1.0;
    assert Dot(u, n) == k * (len * len);
    assert Dot(u, n) == len;
    assert Dot(u, u) == k * len;
  }

  /** The sixteen `addTriangle` calls of js/main.js:97-191, in order. */
  function LogoTriangles(): (r: seq<Triangle>)
    ensures |r| == 16
  {
    [ // front face
      Triangle(Corner(0, true), Corner(2, true), Corner(1, true)),
      Triangle(Corner(3, true), Corner(4, true), Corner(5, true)),
      // back face, reversed for culling
      Triangle(Corner(0, false), Corner(1, false), Corner(2, false)),
      Triangle(Corner(3, false), Corner(5, false), Corner(4, false)),
      // left arm outer
      Triangle(Corner(0, true), Corner(0, false), Corner(2, true)),
      Triangle(Corner(0, false), Corner(2, false), Corner(2, true)),
      // left arm inner
      Triangle(Corner(1, true), Corner(2, true), Corner(1, false)),
      Triangle(Corner(1, false), Corner(2, true), Corner(2, false)),
      // right arm outer
      Triangle(Corner(3, true), Corner(5, true), Corner(3, false)),
      Triangle(Corner(3, false), Corner(5, true), Corner(5, false)),
      // right arm inner
      Triangle(Corner(4, true), Corner(4, false), Corner(5, true)),
      Triangle(Corner(4, false), Corner(5, false), Corner(5, true)),
      // top left
      Triangle(Corner(0, true), Corner(1, true), Corner(0, false)),
      Triangle(Corner(0, false), Corner(1, true), Corner(1, false)),
      // top right
      Triangle(Corner(3, true), Corner(3, false), Corner(4, true)),
      Triangle(Corner(3, false), Corner(4, false), Corner(4, true))
    ]
  }

  /** A vertex of the logo: an outline point on the front or back face. */
  predicate OnLogo(v: Vec3)
  {
    && (v.z == Depth / 2.0 || v.z == -Depth / 2.0)
    && (v.x, v.y) in Outline
  }

  /** Every vertex of every logo triangle lies on the logo's two faces. */
  lemma LogoVerticesOnOutline()
    ensures forall k, j :: 0 <= k < |LogoTriangles()| && 0 <= j < 3 ==> OnLogo(Vertex(LogoTriangles()[k], j))
  {
    forall i, front | 0 <= i < |Outline| ensures OnLogo(Corner(i, front)) {
      assert Outline[i] in Outline;
    }
  }

  /** A point inside the prism of the left (x < 0) or right arm. */
  function ArmCentre(t: Triangle): Vec3
  {
    if t.p1.x < 0.0 then Vec3(-0.44, 0.2, 0.0) else Vec3(0.44, 0.2, 0.0)
  }

  /** The normal of `t` points away from the inside of its arm. */
  predicate Outward(t: Triangle)
  {
    Dot(FaceNormal(t), Sub(t.p1, ArmCentre(t))) > 0.0
  }

  /**
   * Each arm of the V is a triangular prism, and every logo triangle's
   * winding makes its normal point out of the arm it bounds: away from a
   * point inside the arm.
   */
  lemma LogoNormalsOutward()
    ensures forall k :: 0 <= k < |LogoTriangles()| ==> Outward(LogoTriangles()[k])
  {
    forall k | 0 <= k < |LogoTriangles()|
      ensures Outward(LogoTriangles()[k])
    {
      FaceOutward(k);
    }
  }

  lemma FaceOutward(k: nat)
    requires k < |LogoTriangles()|
    ensures Outward(LogoTriangles()[k])
  {
    var t := LogoTriangles()[k];
    if k == 0 {
      assert t == Triangle(Vec3(-0.9, 0.6, 0.15), Vec3(-0.12, -0.6, 0.15), Vec3(-0.3, 0.6, 0.15));
      Normal0(t);
    } else if k == 1 {
      assert t == Triangle(Vec3(0.9, 0.6, 0.15), Vec3(0.3, 0.6, 0.15), Vec3(0.12, -0.6, 0.15));
      Normal1(t);
    } else if k == 2 {
      assert t == Triangle(Vec3(-0.9, 0.6, -0.15), Vec3(-0.3, 0.6, -0.15), Vec3(-0.12, -0.6, -0.15));
      Normal2(t);
    } else if k == 3 {
      assert t == Triangle(Vec3(0.9, 0.6, -0.15), Vec3(0.12, -0.6, -0.15), Vec3(0.3, 0.6, -0.15));
      Normal3(t);
    } else if k == 4 {
      assert t == Triangle(Vec3(-0.9, 0.6, 0.15), Vec3(-0.9, 0.6, -0.15), Vec3(-0.12, -0.6, 0.15));
      Normal4(t);
    } else if k == 5 {
      assert t == Triangle(Vec3(-0.9, 0.6, -0.15), Vec3(-0.12, -0.6, -0.15), Vec3(-0.12, -0.6, 0.15));
      Normal5(t);
    } else if k == 6 {
      assert t == Triangle(Vec3(-0.3, 0.6, 0.15), Vec3(-0.12, -0.6, 0.15), Vec3(-0.3, 0.6, -0.15));
      Normal6(t);
    } else if k == 7 {
      assert t == Triangle(Vec3(-0.3, 0.6, -0.15), Vec3(-0.12, -0.6, 0.15), Vec3(-0.12, -0.6, -0.15));
      Normal7(t);
    } else if k == 8 {
      assert t == Triangle(Vec3(0.9, 0.6, 0.15), Vec3(0.12, -0.6, 0.15), Vec3(0.9, 0.6, -0.15));
      Normal8(t);
    } else if k == 9 {
      assert t == Triangle(Vec3(0.9, 0.6, -0.15), Vec3(0.12, -0.6, 0.15), Vec3(0.12, -0.6, -0.15));
      Normal9(t);
    } else if k == 10 {
      assert t == Triangle(Vec3(0.3, 0.6, 0.15), Vec3(0.3, 0.6, -0.15), Vec3(0.12, -0.6, 0.15));
      Normal10(t);
    } else if k == 11 {
      assert t == Triangle(Vec3(0.3, 0.6, -0.15), Vec3(0.12, -0.6, -0.15), Vec3(0.12, -0.6, 0.15));
      Normal11(t);
    } else if k == 12 {
      assert t == Triangle(Vec3(-0.9, 0.6, 0.15), Vec3(-0.3, 0.6, 0.15), Vec3(-0.9, 0.6, -0.15));
      Normal12(t);
    } else if k == 13 {
      assert t == Triangle(Vec3(-0.9, 0.6, -0.15), Vec3(-0.3, 0.6, 0.15), Vec3(-0.3, 0.6, -0.15));
      Normal13(t);
    } else if k == 14 {
      assert t == Triangle(Vec3(0.9, 0.6, 0.15), Vec3(0.9, 0.6, -0.15), Vec3(0.3, 0.6, 0.15));
      Normal14(t);
    } else {
      assert t == Triangle(Vec3(0.9, 0.6, -0.15), Vec3(0.3, 0.6, -0.15), Vec3(0.3, 0.6, 0.15));
      Normal15(t);
    }
  }

  // The face normal of each logo triangle, one lemma per triangle.
  lemma Normal0(t: Triangle)
    requires t == Triangle(Vec3(-0.9, 0.6, 0.15), Vec3(-0.12, -0.6, 0.15), Vec3(-0.3, 0.6, 0.15))
    ensures FaceNormal(t) == Vec3(0.0, 0.0, 0.72)
  {
  }

  lemma Normal1(t: Triangle)
    requires t == Triangle(Vec3(0.9, 0.6, 0.15), Vec3(0.3, 0.6, 0.15), Vec3(0.12, -0.6, 0.15))
    ensures FaceNormal(t) == Vec3(0.0, 0.0, 0.72)
  {
  }

  lemma Normal2(t: Triangle)
    requires t == Triangle(Vec3(-0.9, 0.6, -0.15), Vec3(-0.3, 0.6, -0.15), Vec3(-0.12, -0.6, -0.15))
    ensures FaceNormal(t) == Vec3(0.0, 0.0, -0.72)
  {
  }

  lemma Normal3(t: Triangle)
    requires t == Triangle(Vec3(0.9, 0.6, -0.15), Vec3(0.12, -0.6, -0.15), Vec3(0.3, 0.6, -0.15))
    ensures FaceNormal(t) == Vec3(0.0, 0.0, -0.72)
  {
  }

  lemma Normal4(t: Triangle)
    requires t == Triangle(Vec3(-0.9, 0.6, 0.15), Vec3(-0.9, 0.6, -0.15), Vec3(-0.12, -0.6, 0.15))
    ensures FaceNormal(t) == Vec3(-0.36, -0.234, 0.0)
  {
  }

  lemma Normal5(t: Triangle)
    requires t == Triangle(Vec3(-0.9, 0.6, -0.15), Vec3(-0.12, -0.6, -0.15), Vec3(-0.12, -0.6, 0.15))
    ensures FaceNormal(t) == Vec3(-0.36, -0.234, 0.0)
  {
  }

  lemma Normal6(t: Triangle)
    requires t == Triangle(Vec3(-0.3, 0.6, 0.15), Vec3(-0.12, -0.6, 0.15), Vec3(-0.3, 0.6, -0.15))
    ensures FaceNormal(t) == Vec3(0.36, 0.054, 0.0)
  {
  }

  lemma Normal7(t: Triangle)
    requires t == Triangle(Vec3(-0.3, 0.6, -0.15), Vec3(-0.12, -0.6, 0.15), Vec3(-0.12, -0.6, -0.15))
    ensures FaceNormal(t) == Vec3(0.36, 0.054, 0.0)
  {
  }

  lemma Normal8(t: Triangle)
    requires t == Triangle(Vec3(0.9, 0.6, 0.15), Vec3(0.12, -0.6, 0.15), Vec3(0.9, 0.6, -0.15))
    ensures FaceNormal(t) == Vec3(0.36, -0.234, 0.0)
  {
  }

  lemma Normal9(t: Triangle)
    requires t == Triangle(Vec3(0.9, 0.6, -0.15), Vec3(0.12, -0.6, 0.15), Vec3(0.12, -0.6, -0.15))
    ensures FaceNormal(t) == Vec3(0.36, -0.234, 0.0)
  {
  }

  lemma Normal10(t: Triangle)
    requires t == Triangle(Vec3(0.3, 0.6, 0.15), Vec3(0.3, 0.6, -0.15), Vec3(0.12, -0.6, 0.15))
    ensures FaceNormal(t) == Vec3(-0.36, 0.054, 0.0)
  {
  }

  lemma Normal11(t: Triangle)
    requires t == Triangle(Vec3(0.3, 0.6, -0.15), Vec3(0.12, -0.6, -0.15), Vec3(0.12, -0.6, 0.15))
    ensures FaceNormal(t) == Vec3(-0.36, 0.054, 0.0)
  {
  }

  lemma Normal12(t: Triangle)
    requires t == Triangle(Vec3(-0.9, 0.6, 0.15), Vec3(-0.3, 0.6, 0.15), Vec3(-0.9, 0.6, -0.15))
    ensures FaceNormal(t) == Vec3(0.0, 0.18, 0.0)
  {
  }

  lemma Normal13(t: Triangle)
    requires t == Triangle(Vec3(-0.9, 0.6, -0.15), Vec3(-0.3, 0.6, 0.15), Vec3(-0.3, 0.6, -0.15))
    ensures FaceNormal(t) == Vec3(0.0, 0.18, 0.0)
  {
  }

  lemma Normal14(t: Triangle)
    requires t == Triangle(Vec3(0.9, 0.6, 0.15), Vec3(0.9, 0.6, -0.15), Vec3(0.3, 0.6, 0.15))
    ensures FaceNormal(t) == Vec3(0.0, 0.18, 0.0)
  {
  }

  lemma Normal15(t: Triangle)
    requires t == Triangle(Vec3(0.9, 0.6, -0.15), Vec3(0.3, 0.6, -0.15), Vec3(0.3, 0.6, 0.15))
    ensures FaceNormal(t) == Vec3(0.0, 0.18, 0.0)
  {
  }

  /** No logo triangle is degenerate, so every normal is well defined. */
  lemma LogoNonDegenerate()
    ensures forall k :: 0 <= k < |LogoTriangles()| ==> SqNorm(FaceNormal(LogoTriangles()[k])) > 0.0
  {
    forall k | 0 <= k < |LogoTriangles()|
      ensures SqNorm(FaceNormal(LogoTriangles()[k])) > 0.0
    {
      var t := LogoTriangles()[k];
      FaceOutward(k);
      NonZeroOfPositiveDot(FaceNormal(t), Sub(t.p1, ArmCentre(t)));
      SqLengthPositive(FaceNormal(t));
    }
  }

  /** The vertex list `createVVertices` grows; `addTriangle` appends to it. */
  class VertexList {
    var vertices: seq<real>

    constructor ()
      ensures vertices == []
    {
      vertices := [];
    }

    /** `addTriangle(p1, p2, p3)`. */
    method AddTriangle(p1: Vec3, p2: Vec3, p3: Vec3, sqrt: real -> real)
      requires Normalisable(Triangle(p1, p2, p3), sqrt)
      modifies this
      ensures vertices == old(vertices) + Record(Triangle(p1, p2, p3), UnitNormal(Triangle(p1, p2, p3), sqrt))
    {
      var u := Sub(p2, p1);
      var v := Sub(p3, p1);
      var n := Cross(u, v);
      var len := sqrt(Dot(n, n));
      var normal := Vec3(n.x / len, n.y / len, n.z / len);
      vertices := vertices + [
        p1.x, p1.y, p1.z, normal.x, normal.y, normal.z,
        p2.x, p2.y, p2.z, normal.x, normal.y, normal.z,
        p3.x, p3.y, p3.z, normal.x, normal.y, normal.z
      ];
    }
  }

  /**
   * `createVVertices`: the sixteen `addTriangle` calls in the source's
   * order, two for each of the eight faces of the extruded V.
   */
  method CreateVVertices(sqrt: real -> real) returns (vertices: seq<real>)
    requires IsSqrt(sqrt)
    ensures vertices == LogoMesh(sqrt)
  {
    LogoNormalisable(sqrt);
    var list := new VertexList();
    AddCapFaces(list, sqrt);
    AddSideFaces(list, sqrt);
    vertices := list.vertices;
  }

  /** The four `addTriangle` calls of the front and back faces. */
  method AddCapFaces(list: VertexList, sqrt: real -> real)
    requires forall i :: 0 <= i < |LogoTriangles()| ==> Normalisable(LogoTriangles()[i], sqrt)
    requires list.vertices == []
    modifies list
    ensures list.vertices == Mesh(LogoTriangles()[..4], sqrt)
  {
    assert LogoTriangles()[..0] == [];
    AddFace(list, 0, sqrt);  // front face (z = depth/2)
    AddFace(list, 1, sqrt);  // back face (z = -depth/2), reversed for culling
  }

  /** The twelve `addTriangle` calls of the side faces. */
  method AddSideFaces(list: VertexList, sqrt: real -> real)
    requires forall i :: 0 <= i < |LogoTriangles()| ==> Normalisable(LogoTriangles()[i], sqrt)
    requires list.vertices == Mesh(LogoTriangles()[..4], sqrt)
    modifies list
    ensures list.vertices == Mesh(LogoTriangles(), sqrt)
  {
    AddFace(list, 2, sqrt);  // left arm outer
    AddFace(list, 3, sqrt);  // left arm inner
    AddFace(list, 4, sqrt);  // right arm outer
    AddFace(list, 5, sqrt);  // right arm inner
    AddFace(list, 6, sqrt);  // top left
    AddFace(list, 7, sqrt);  // top right
    AllOf(LogoTriangles());
  }

  /** The two `addTriangle` calls of face f (triangles 2f and 2f + 1). */
  method AddFace(list: VertexList, f: nat, sqrt: real -> real)
    requires f < 8
    requires forall i :: 0 <= i < |LogoTriangles()| ==> Normalisable(LogoTriangles()[i], sqrt)
    requires list.vertices == Mesh(LogoTriangles()[..2 * f], sqrt)
    modifies list
    ensures list.vertices == Mesh(LogoTriangles()[..2 * f + 2], sqrt)
  {
    AddLogoTriangle(list, 2 * f, sqrt);
    AddLogoTriangle(list, 2 * f + 1, sqrt);
  }

  /** The k-th `addTriangle` call of `createVVertices`. */
  method AddLogoTriangle(list: VertexList, k: nat, sqrt: real -> real)
    requires k < |LogoTriangles()|
    requires forall i :: 0 <= i < |LogoTriangles()| ==> Normalisable(LogoTriangles()[i], sqrt)
    requires list.vertices == Mesh(LogoTriangles()[..k], sqrt)
    modifies list
    ensures list.vertices == Mesh(LogoTriangles()[..k + 1], sqrt)
  {
    var t := LogoTriangles()[k];
    list.AddTriangle(t.p1, t.p2, t.p3, sqrt);
    MeshSnoc(LogoTriangles(), k, sqrt);
  }

  lemma AllOf<T>(s: seq<T>)
    ensures s[..|s|] == s
  {
  }

  /** The numbers `createVVertices` returns, for a given square root. */
  function LogoMesh(sqrt: real -> real): (r: seq<real>)
    requires IsSqrt(sqrt)
    ensures |r| == 18 * 16
  {
    LogoNormalisable(sqrt);
    Mesh(LogoTriangles(), sqrt)
  }

  /** Every logo triangle has a well-defined unit normal. */
  lemma LogoNormalisable(sqrt: real -> real)
    requires IsSqrt(sqrt)
    ensures forall k :: 0 <= k < |LogoTriangles()| ==> Normalisable(LogoTriangles()[k], sqrt)
  {
    LogoNonDegenerate();
    forall k | 0 <= k < |LogoTriangles()|
      ensures Normalisable(LogoTriangles()[k], sqrt)
    {
      UnitNormalProperties(LogoTriangles()[k], sqrt);
    }
  }

  /** Appending triangle k to the mesh of the first k triangles. */
  lemma MeshSnoc(tris: seq<Triangle>, k: nat, sqrt: real -> real)
    requires k < |tris|
    requires forall i :: 0 <= i < |tris| ==> Normalisable(tris[i], sqrt)
    ensures Mesh(tris[..k + 1], sqrt) == Mesh(tris[..k], sqrt) + Record(tris[k], UnitNormal(tris[k], sqrt))
  {
    assert tris[..k + 1][..k] == tris[..k];
  }
}
