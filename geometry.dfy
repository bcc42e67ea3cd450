/**
 * Three-component vectors, the `[x, y, z]` arrays that js/lightning.js and
 * js/main.js pass around for points and normals.
 */
module Geometry {

  datatype Vec3 = Vec3(x: real, y: real, z: real)

  function Sub(a: Vec3, b: Vec3): Vec3
  {
    Vec3(a.x - b.x, a.y - b.y, a.z - b.z)
  }

  function Add(a: Vec3, b: Vec3): Vec3
  {
    Vec3(a.x + b.x, a.y + b.y, a.z + b.z)
  }

  function Dot(a: Vec3, b: Vec3): real
  {
    a.x * b.x + a.y * b.y + a.z * b.z
  }

  function ScaleBy(a: Vec3, k: real): Vec3
  {
    Vec3(a.x * k, a.y * k, a.z * k)
  }

  /** The right-handed cross product, written out as js/main.js:72-74 does. */
  function Cross(u: Vec3, v: Vec3): Vec3
  {
    Vec3(u.y * v.z - u.z * v.y,
         u.z * v.x - u.x * v.z,
         u.x * v.y - u.y * v.x)
  }

  /** The cross product is orthogonal to both of its arguments. */
  lemma CrossOrthogonal(u: Vec3, v: Vec3)
    ensures Dot(Cross(u, v), u) == 0.0 && Dot(Cross(u, v), v) == 0.0
  {
  }

  /** Scaling a vector scales its dot product with any other vector. */
  lemma DotScale(a: Vec3, k: real, b: Vec3)
    ensures Dot(ScaleBy(a, k), b) == k * Dot(a, b)
  {
  }

  /** Only the zero vector has a zero dot product with everything. */
  lemma NonZeroOfPositiveDot(n: Vec3, w: Vec3)
    requires Dot(n, w) > 0.0
    ensures n != Vec3(0.0, 0.0, 0.0)
  {
    assert Dot(Vec3(0.0, 0.0, 0.0), w) == 0.0;
  }

  /** A non-zero vector has a positive squared length. */
  lemma SqLengthPositive(n: Vec3)
    requires n != Vec3(0.0, 0.0, 0.0)
    ensures Dot(n, n) > 0.0
  {
    Square(n.x);
    Square(n.y);
    Square(n.z);
    if n.x == 0.0 && n.y == 0.0 {
      assert n.z != 0.0;
    }
    calc {
      Dot(n, n);
    ==
      n.x * n.x + n.y * n.y + n.z * n.z;
    >
      0.0;
    }
  }

  lemma Square(a: real)
    ensures a * a >= 0.0
    ensures a != 0.0 ==> a * a > 0.0
  {
    if a < 0.0 {
      assert a * a == (-a) * (-a);
    }
  }
}
