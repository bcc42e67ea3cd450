// The 4x4 matrix library of the logo demo (js/utils.js).
//
// A matrix is a flat 16-element buffer in column-major order: entry (row r,
// column c) lives at index 4 * c + r, so indices 0..3 are the first basis
// column and 12..15 the translation column. The source works on Float32Array
// buffers that the caller owns and every operation overwrites its argument in
// place; the methods below do the same on a `Buffer` object whose entries
// they overwrite one at a time, and each one is specified by a pure function
// on `seq<real>` whose properties are proved as lemmas (post-multiplication
// semantics, inverse, involution).
module Mat4 {

  type Matrix4 = m: seq<real> | |m| == 16 witness seq(16, _ => 0.0)

  /** Entry (row, col) of a column-major matrix. */
  function At(m: Matrix4, row: nat, col: nat): real
    requires row < 4 && col < 4
  {
    m[4 * col + row]
  }

  /**
   * x * y. Products in matrix entries go through this function so that a
   * proof can replace a factor by an equal expression without the solver
   * having to multiply polynomials out.
   */
  function Times(x: real, y: real): real
  {
    x * y
  }

  /** Entry (row, col) of the product a * b. */
  function Dot(a: Matrix4, b: Matrix4, row: nat, col: nat): real
    requires row < 4 && col < 4
  {
    Times(At(a, row, 0), At(b, 0, col)) + Times(At(a, row, 1), At(b, 1, col))
    + Times(At(a, row, 2), At(b, 2, col)) + Times(At(a, row, 3), At(b, 3, col))
  }

  /** Matrix product a * b, column by column. */
  function Mul(a: Matrix4, b: Matrix4): (r: Matrix4)
    ensures forall row, col :: row < 4 && col < 4 ==> At(r, row, col) == Dot(a, b, row, col)
  {
    [Dot(a, b, 0, 0), Dot(a, b, 1, 0), Dot(a, b, 2, 0), Dot(a, b, 3, 0),
     Dot(a, b, 0, 1), Dot(a, b, 1, 1), Dot(a, b, 2, 1), Dot(a, b, 3, 1),
     Dot(a, b, 0, 2), Dot(a, b, 1, 2), Dot(a, b, 2, 2), Dot(a, b, 3, 2),
     Dot(a, b, 0, 3), Dot(a, b, 1, 3), Dot(a, b, 2, 3), Dot(a, b, 3, 3)]
  }

  /** A homogeneous point or direction multiplied by a matrix. */
  function Transform(m: Matrix4, v: seq<real>): (r: seq<real>)
    requires |v| == 4
    ensures |r| == 4
  {
    seq(4, row requires 0 <= row < 4 =>
      At(m, row, 0) * v[0] + At(m, row, 1) * v[1] + At(m, row, 2) * v[2] + At(m, row, 3) * v[3])
  }

  /** Two matrices are equal when their sixteen entries are. */
  predicate SameEntries(a: Matrix4, b: Matrix4)
  {
    && a[0] == b[0] && a[1] == b[1] && a[2] == b[2] && a[3] == b[3]
    && a[4] == b[4] && a[5] == b[5] && a[6] == b[6] && a[7] == b[7]
    && a[8] == b[8] && a[9] == b[9] && a[10] == b[10] && a[11] == b[11]
    && a[12] == b[12] && a[13] == b[13] && a[14] == b[14] && a[15] == b[15]
  }

  lemma EqualByEntries(a: Matrix4, b: Matrix4)
    requires SameEntries(a, b)
    ensures a == b
  {
    forall i | 0 <= i < 16 ensures a[i] == b[i] {
      assert i == 0 || i == 1 || i == 2 || i == 3 || i == 4 || i == 5 || i == 6 || i == 7
          || i == 8 || i == 9 || i == 10 || i == 11 || i == 12 || i == 13 || i == 14 || i == 15;
    }
  }

  // ---------------------------------------------------------------------------
  // Specification functions
  // ---------------------------------------------------------------------------

  function IdentityMatrix(): (m: Matrix4)
    ensures forall i :: 0 <= i < 16 ==> m[i] == if i % 5 == 0 then 1.0 else 0.0
  {
    [1.0, 0.0, 0.0, 0.0,
     0.0, 1.0, 0.0, 0.0,
     0.0, 0.0, 1.0, 0.0,
     0.0, 0.0, 0.0, 1.0]
  }

  /** The projection `perspective` writes, with f = 1 / tan(fovy / 2) given. */
  function PerspectiveMatrix(f: real, aspect: real, near: real, far: real): (m: Matrix4)
    requires aspect != 0.0 && near != far
    ensures m[0] == f / aspect && m[5] == f && m[11] == -1.0 && m[15] == 0.0
    ensures m[10] == (far + near) / (near - far) && m[14] == 2.0 * far * near / (near - far)
    ensures forall i :: 0 <= i < 16 && i != 0 && i != 5 && i != 10 && i != 11 && i != 14 ==> m[i] == 0.0
    ensures f != 0.0 ==> m[5] != 0.0
  {
    var nf := 1.0 / (near - far);
    [f / aspect, 0.0, 0.0, 0.0,
     0.0, f, 0.0, 0.0,
     0.0, 0.0, (far + near) * nf, -1.0,
     0.0, 0.0, (2.0 * far * near) * nf, 0.0]
  }

  /** `translate`: column 3 gains x * column 0 + y * column 1 + z * column 2. */
  function Translated(m: Matrix4, x: real, y: real, z: real): (r: Matrix4)
    ensures forall i :: 0 <= i < 12 ==> r[i] == m[i]
  {
    [m[0], m[1], m[2], m[3], m[4], m[5], m[6], m[7], m[8], m[9], m[10], m[11],
     m[12] + (m[0] * x + m[4] * y + m[8] * z),
     m[13] + (m[1] * x + m[5] * y + m[9] * z),
     m[14] + (m[2] * x + m[6] * y + m[10] * z),
     m[15] + (m[3] * x + m[7] * y + m[11] * z)]
  }

  /** The translation by (x, y, z) as a matrix of its own. */
  function TranslationMatrix(x: real, y: real, z: real): Matrix4
  {
    [1.0, 0.0, 0.0, 0.0,
     0.0, 1.0, 0.0, 0.0,
     0.0, 0.0, 1.0, 0.0,
     x, y, z, 1.0]
  }

  /** `rotateY` with c = cos(angle) and s = sin(angle) given: columns 0 and 2 are recombined. */
  function RotatedY(m: Matrix4, c: real, s: real): (r: Matrix4)
    ensures forall i :: 4 <= i < 8 || 12 <= i < 16 ==> r[i] == m[i]
  {
    [Times(m[0], c) + Times(m[8], s), Times(m[1], c) + Times(m[9], s), Times(m[2], c) + Times(m[10], s), Times(m[3], c) + Times(m[11], s),
     m[4], m[5], m[6], m[7],
     Times(m[8], c) - Times(m[0], s), Times(m[9], c) - Times(m[1], s), Times(m[10], c) - Times(m[2], s), Times(m[11], c) - Times(m[3], s),
     m[12], m[13], m[14], m[15]]
  }

  /** The rotation about the Y axis as a matrix of its own. */
  function RotationY(c: real, s: real): Matrix4
  {
    [c, 0.0, s, 0.0,
     0.0, 1.0, 0.0, 0.0,
     -s, 0.0, c, 0.0,
     0.0, 0.0, 0.0, 1.0]
  }

  /** The determinant by the 2x2 sub-determinant (cofactor) expansion `invert` uses. */
  function Det(a: Matrix4): real
  {
    var a00, a01, a02, a03 := a[0], a[1], a[2], a[3];
    var a10, a11, a12, a13 := a[4], a[5], a[6], a[7];
    var a20, a21, a22, a23 := a[8], a[9], a[10], a[11];
    var a30, a31, a32, a33 := a[12], a[13], a[14], a[15];
    var b00 := a00 * a11 - a01 * a10;
    var b01 := a00 * a12 - a02 * a10;
    var b02 := a00 * a13 - a03 * a10;
    var b03 := a01 * a12 - a02 * a11;
    var b04 := a01 * a13 - a03 * a11;
    var b05 := a02 * a13 - a03 * a12;
    var b06 := a20 * a31 - a21 * a30;
    var b07 := a20 * a32 - a22 * a30;
    var b08 := a20 * a33 - a23 * a30;
    var b09 := a21 * a32 - a22 * a31;
    var b10 := a21 * a33 - a23 * a31;
    var b11 := a22 * a33 - a23 * a32;
    b00 * b11 - b01 * b10 + b02 * b09 + b03 * b08 - b04 * b07 + b05 * b06
  }

  /** The adjugate (transposed cofactor matrix): what `invert` writes before scaling by 1 / det. */
  function Adjugate(a: Matrix4): Matrix4
  {
    var a00, a01, a02, a03 := a[0], a[1], a[2], a[3];
    var a10, a11, a12, a13 := a[4], a[5], a[6], a[7];
    var a20, a21, a22, a23 := a[8], a[9], a[10], a[11];
    var a30, a31, a32, a33 := a[12], a[13], a[14], a[15];
    var b00 := a00 * a11 - a01 * a10;
    var b01 := a00 * a12 - a02 * a10;
    var b02 := a00 * a13 - a03 * a10;
    var b03 := a01 * a12 - a02 * a11;
    var b04 := a01 * a13 - a03 * a11;
    var b05 := a02 * a13 - a03 * a12;
    var b06 := a20 * a31 - a21 * a30;
    var b07 := a20 * a32 - a22 * a30;
    var b08 := a20 * a33 - a23 * a30;
    var b09 := a21 * a32 - a22 * a31;
    var b10 := a21 * a33 - a23 * a31;
    var b11 := a22 * a33 - a23 * a32;
    [a11 * b11 - a12 * b10 + a13 * b09,
     a02 * b10 - a01 * b11 - a03 * b09,
     a31 * b05 - a32 * b04 + a33 * b03,
     a22 * b04 - a21 * b05 - a23 * b03,
     a12 * b08 - a10 * b11 - a13 * b07,
     a00 * b11 - a02 * b08 + a03 * b07,
     a32 * b02 - a30 * b05 - a33 * b01,
     a20 * b05 - a22 * b02 + a23 * b01,
     a10 * b10 - a11 * b08 + a13 * b06,
     a01 * b08 - a00 * b10 - a03 * b06,
     a30 * b04 - a31 * b02 + a33 * b00,
     a21 * b02 - a20 * b04 - a23 * b00,
     a11 * b07 - a10 * b09 - a12 * b06,
     a00 * b09 - a01 * b07 + a02 * b06,
     a31 * b01 - a30 * b03 - a32 * b00,
     a20 * b03 - a21 * b01 + a22 * b00]
  }

  /** Every entry of m multiplied by k. */
  function Scaled(m: Matrix4, k: real): Matrix4
  {
    [Times(m[0], k), Times(m[1], k), Times(m[2], k), Times(m[3], k),
     Times(m[4], k), Times(m[5], k), Times(m[6], k), Times(m[7], k),
     Times(m[8], k), Times(m[9], k), Times(m[10], k), Times(m[11], k),
     Times(m[12], k), Times(m[13], k), Times(m[14], k), Times(m[15], k)]
  }

  /** What `invert` writes when the determinant is not zero. */
  function Inverse(a: Matrix4): Matrix4
    requires Det(a) != 0.0
  {
    Scaled(Adjugate(a), 1.0 / Det(a))
  }

  function Transposed(a: Matrix4): (r: Matrix4)
    ensures forall row, col :: row < 4 && col < 4 ==> At(r, row, col) == At(a, col, row)
  {
    [a[0], a[4], a[8], a[12],
     a[1], a[5], a[9], a[13],
     a[2], a[6], a[10], a[14],
     a[3], a[7], a[11], a[15]]
  }

  // ---------------------------------------------------------------------------
  // The operations of js/utils.js, in place on caller-owned buffers
  // ---------------------------------------------------------------------------

  /**
   * A Float32Array owned by the caller. The operations below write into it
   * one entry at a time, as the source does, and two arguments may be the
   * same buffer.
   */
  class Buffer {
    var entries: seq<real>

    /** `new Float32Array(n)`: n zeros. */
    constructor (n: nat)
      ensures entries == seq(n, _ => 0.0)
    {
      entries := seq(n, _ => 0.0);
    }

    /** `buffer[i] = v`. */
    method Set(i: nat, v: real)
      requires i < |entries|
      modifies this
      ensures |entries| == |old(entries)| && entries[i] == v
      ensures forall j :: 0 <= j < |entries| && j != i ==> entries[j] == old(entries)[j]
    {
      entries := entries[i := v];
    }
  }

  /** `createMatrix4`: a fresh zero-filled 16-entry buffer. */
  method CreateMatrix4() returns (m: Buffer)
    ensures fresh(m) && |m.entries| == 16
    ensures forall i :: 0 <= i < 16 ==> m.entries[i] == 0.0
  {
    m := new Buffer(16);
  }

  /** `identity`. */
  method Identity(m: Buffer)
    requires |m.entries| == 16
    modifies m
    ensures m.entries == IdentityMatrix()
  {
    m.Set(0, 1.0); m.Set(1, 0.0); m.Set(2, 0.0); m.Set(3, 0.0);
    m.Set(4, 0.0); m.Set(5, 1.0); m.Set(6, 0.0); m.Set(7, 0.0);
    m.Set(8, 0.0); m.Set(9, 0.0); m.Set(10, 1.0); m.Set(11, 0.0);
    m.Set(12, 0.0); m.Set(13, 0.0); m.Set(14, 0.0); m.Set(15, 1.0);
    EqualByEntries(m.entries, IdentityMatrix());
  }

  /** `perspective`, with f = 1 / tan(fovy / 2) supplied by the caller. */
  method Perspective(m: Buffer, f: real, aspect: real, near: real, far: real)
    requires |m.entries| == 16
    requires aspect != 0.0 && near != far
    modifies m
    ensures m.entries == PerspectiveMatrix(f, aspect, near, far)
  {
    var nf := 1.0 / (near - far);
    m.Set(0, f / aspect);
    m.Set(1, 0.0);
    m.Set(2, 0.0);
    m.Set(3, 0.0);
    m.Set(4, 0.0);
    m.Set(5, f);
    m.Set(6, 0.0);
    m.Set(7, 0.0);
    m.Set(8, 0.0);
    m.Set(9, 0.0);
    m.Set(10, (far + near) * nf);
    m.Set(11, -1.0);
    m.Set(12, 0.0);
    m.Set(13, 0.0);
    m.Set(14, (2.0 * far * near) * nf);
    m.Set(15, 0.0);
    EqualByEntries(m.entries, PerspectiveMatrix(f, aspect, near, far));
  }

  /** `translate`: adds x, y and z times the first three columns to the fourth. */
  method Translate(m: Buffer, x: real, y: real, z: real)
    requires |m.entries| == 16
    modifies m
    ensures m.entries == Translated(old(m.entries), x, y, z)
  {
    ghost var before := m.entries;
    m.Set(12, m.entries[12] + (m.entries[0] * x + m.entries[4] * y + m.entries[8] * z));
    m.Set(13, m.entries[13] + (m.entries[1] * x + m.entries[5] * y + m.entries[9] * z));
    m.Set(14, m.entries[14] + (m.entries[2] * x + m.entries[6] * y + m.entries[10] * z));
    m.Set(15, m.entries[15] + (m.entries[3] * x + m.entries[7] * y + m.entries[11] * z));
    EqualByEntries(m.entries, Translated(before, x, y, z));
  }

  /** `rotateY`, with c = cos(angle) and s = sin(angle) supplied by the caller. */
  method RotateY(m: Buffer, c: real, s: real)
    requires |m.entries| == 16
    modifies m
    ensures m.entries == RotatedY(old(m.entries), c, s)
  {
    ghost var before := m.entries;
    var m00, m01, m02, m03 := m.entries[0], m.entries[1], m.entries[2], m.entries[3];
    var m20, m21, m22, m23 := m.entries[8], m.entries[9], m.entries[10], m.entries[11];
    m.Set(0, Times(m00, c) + Times(m20, s));
    m.Set(1, Times(m01, c) + Times(m21, s));
    m.Set(2, Times(m02, c) + Times(m22, s));
    m.Set(3, Times(m03, c) + Times(m23, s));
    m.Set(8, Times(m20, c) - Times(m00, s));
    m.Set(9, Times(m21, c) - Times(m01, s));
    m.Set(10, Times(m22, c) - Times(m02, s));
    m.Set(11, Times(m23, c) - Times(m03, s));
    EqualByEntries(m.entries, RotatedY(before, c, s));
  }

  /**
   * `invert`: reads all of `a` first, so `out` may be `a` itself. Answers
   * null and leaves `out` alone when the determinant is zero; otherwise
   * writes the inverse into `out` and answers `out`.
   */
  method Invert(out: Buffer, a: Buffer) returns (result: Buffer?)
    requires |out.entries| == 16 && |a.entries| == 16
    modifies out
    ensures result == null <==> Det(old(a.entries)) == 0.0
    ensures result == null ==> out.entries == old(out.entries)
    ensures result != null ==> result == out && Det(old(a.entries)) != 0.0 && out.entries == Inverse(old(a.entries))
  {
    var m: Matrix4 := a.entries;
    var det := Det(m);
    if det == 0.0 {
      return null;
    }
    var adj := Adjugate(m);
    det := 1.0 / det;
    out.Set(0, Times(adj[0], det));
    out.Set(1, Times(adj[1], det));
    out.Set(2, Times(adj[2], det));
    out.Set(3, Times(adj[3], det));
    out.Set(4, Times(adj[4], det));
    out.Set(5, Times(adj[5], det));
    out.Set(6, Times(adj[6], det));
    out.Set(7, Times(adj[7], det));
    out.Set(8, Times(adj[8], det));
    out.Set(9, Times(adj[9], det));
    out.Set(10, Times(adj[10], det));
    out.Set(11, Times(adj[11], det));
    out.Set(12, Times(adj[12], det));
    out.Set(13, Times(adj[13], det));
    out.Set(14, Times(adj[14], det));
    out.Set(15, Times(adj[15], det));
    EqualByEntries(out.entries, Scaled(adj, det));
    return out;
  }

  /**
   * `transpose`: when `out` and `a` are the same buffer it is transposed in
   * place; otherwise all sixteen entries of `out` are written from `a`.
   */
  method Transpose(out: Buffer, a: Buffer)
    requires |out.entries| == 16 && |a.entries| == 16
    modifies out
    ensures out.entries == Transposed(old(a.entries))
  {
    if out == a {
      TransposeInPlace(a);
    } else {
      TransposeInto(out, a);
    }
  }

  /**
   * The `out === a` branch of `transpose`: the six entries above the
   * diagonal are saved first and the diagonal is never written.
   */
  method TransposeInPlace(a: Buffer)
    requires |a.entries| == 16
    modifies a
    ensures a.entries == Transposed(old(a.entries))
  {
    ghost var before := a.entries;
    var a01, a02, a03 := a.entries[1], a.entries[2], a.entries[3];
    var a12, a13 := a.entries[6], a.entries[7];
    var a23 := a.entries[11];

    a.Set(1, a.entries[4]);
    a.Set(2, a.entries[8]);
    a.Set(3, a.entries[12]);
    a.Set(4, a01);
    a.Set(6, a.entries[9]);
    a.Set(7, a.entries[13]);
    a.Set(8, a02);
    a.Set(9, a12);
    a.Set(11, a.entries[14]);
    a.Set(12, a03);
    a.Set(13, a13);
    a.Set(14, a23);
    EqualByEntries(a.entries, Transposed(before));
  }

  /** The other branch of `transpose`: `a` is only read. */
  method TransposeInto(out: Buffer, a: Buffer)
    requires |out.entries| == 16 && |a.entries| == 16 && out != a
    modifies out
    ensures out.entries == Transposed(a.entries)
  {
    out.Set(0, a.entries[0]); out.Set(1, a.entries[4]); out.Set(2, a.entries[8]); out.Set(3, a.entries[12]);
    out.Set(4, a.entries[1]); out.Set(5, a.entries[5]); out.Set(6, a.entries[9]); out.Set(7, a.entries[13]);
    out.Set(8, a.entries[2]); out.Set(9, a.entries[6]); out.Set(10, a.entries[10]); out.Set(11, a.entries[14]);
    out.Set(12, a.entries[3]); out.Set(13, a.entries[7]); out.Set(14, a.entries[11]); out.Set(15, a.entries[15]);
    EqualByEntries(out.entries, Transposed(a.entries));
  }

  // ---------------------------------------------------------------------------
  // What the operations mean
  // ---------------------------------------------------------------------------

  /** Identity is neutral for the product on both sides. */
  lemma MulIdentity(m: Matrix4)
    ensures Mul(m, IdentityMatrix()) == m && Mul(IdentityMatrix(), m) == m
  {
    EqualByEntries(Mul(m, IdentityMatrix()), m);
    EqualByEntries(Mul(IdentityMatrix(), m), m);
  }

  /** `translate` post-multiplies by the translation matrix. */
  lemma TranslateIsPostMultiply(m: Matrix4, x: real, y: real, z: real)
    ensures Translated(m, x, y, z) == Mul(m, TranslationMatrix(x, y, z))
  {
    EqualByEntries(Translated(m, x, y, z), Mul(m, TranslationMatrix(x, y, z)));
  }

  /** On the identity, `translate` leaves the translation (x, y, z) in entries 12..14 and 1 in entry 15. */
  lemma TranslateIdentity(x: real, y: real, z: real)
    ensures Translated(IdentityMatrix(), x, y, z) == TranslationMatrix(x, y, z)
    ensures Translated(IdentityMatrix(), x, y, z)[12..] == [x, y, z, 1.0]
  {
    EqualByEntries(Translated(IdentityMatrix(), x, y, z), TranslationMatrix(x, y, z));
  }

  /** `rotateY` post-multiplies by the rotation about the Y axis. */
  lemma RotateYIsPostMultiply(m: Matrix4, c: real, s: real)
    ensures RotatedY(m, c, s) == Mul(m, RotationY(c, s))
  {
    EqualByEntries(RotatedY(m, c, s), Mul(m, RotationY(c, s)));
  }

  /** On the identity, `rotateY` gives [0] = c, [2] = s, [8] = -s, [10] = c; at half a turn that is (-1, 0, 0, -1). */
  lemma RotateYIdentity(c: real, s: real)
    ensures RotatedY(IdentityMatrix(), c, s) == RotationY(c, s)
    ensures var r := RotatedY(IdentityMatrix(), c, s); r[0] == c && r[2] == s && r[8] == -s && r[10] == c
    ensures var r := RotatedY(IdentityMatrix(), -1.0, 0.0); r[0] == -1.0 && r[2] == 0.0 && r[8] == 0.0 && r[10] == -1.0
  {
    EqualByEntries(RotatedY(IdentityMatrix(), c, s), RotationY(c, s));
  }

  /** The projection sends the near plane to clip depth -w and the far plane to +w (NDC depth -1 and 1). */
  lemma PerspectiveDepthRange(f: real, aspect: real, near: real, far: real)
    requires aspect != 0.0 && near != far
    ensures var p := Transform(PerspectiveMatrix(f, aspect, near, far), [0.0, 0.0, -near, 1.0]);
      p[3] == near && p[2] == -near
    ensures var p := Transform(PerspectiveMatrix(f, aspect, near, far), [0.0, 0.0, -far, 1.0]);
      p[3] == far && p[2] == far
  {
  }

  /** Transposing twice restores the matrix. */
  lemma TransposeInvolutive(a: Matrix4)
    ensures Transposed(Transposed(a)) == a
  {
    EqualByEntries(Transposed(Transposed(a)), a);
  }

  /** Column 0 of adj(a) * a written out as polynomials in the entries of a. */
  lemma AdjugateTimesPolynomial0(a: Matrix4)
    ensures Times(a[5] * (a[10] * a[15] - a[11] * a[14]) - a[6] * (a[9] * a[15] - a[11] * a[13]) + a[7] * (a[9] * a[14] - a[10] * a[13]), a[0])
        + Times(a[6] * (a[8] * a[15] - a[11] * a[12]) - a[4] * (a[10] * a[15] - a[11] * a[14]) - a[7] * (a[8] * a[14] - a[10] * a[12]), a[1])
        + Times(a[4] * (a[9] * a[15] - a[11] * a[13]) - a[5] * (a[8] * a[15] - a[11] * a[12]) + a[7] * (a[8] * a[13] - a[9] * a[12]), a[2])
        + Times(a[5] * (a[8] * a[14] - a[10] * a[12]) - a[4] * (a[9] * a[14] - a[10] * a[13]) - a[6] * (a[8] * a[13] - a[9] * a[12]), a[3])
        == (a[0] * a[5] - a[1] * a[4]) * (a[10] * a[15] - a[11] * a[14]) - (a[0] * a[6] - a[2] * a[4]) * (a[9] * a[15] - a[11] * a[13]) + (a[0] * a[7] - a[3] * a[4]) * (a[9] * a[14] - a[10] * a[13]) + (a[1] * a[6] - a[2] * a[5]) * (a[8] * a[15] - a[11] * a[12]) - (a[1] * a[7] - a[3] * a[5]) * (a[8] * a[14] - a[10] * a[12]) + (a[2] * a[7] - a[3] * a[6]) * (a[8] * a[13] - a[9] * a[12])
    ensures Times(a[2] * (a[9] * a[15] - a[11] * a[13]) - a[1] * (a[10] * a[15] - a[11] * a[14]) - a[3] * (a[9] * a[14] - a[10] * a[13]), a[0])
        + Times(a[0] * (a[10] * a[15] - a[11] * a[14]) - a[2] * (a[8] * a[15] - a[11] * a[12]) + a[3] * (a[8] * a[14] - a[10] * a[12]), a[1])
        + Times(a[1] * (a[8] * a[15] - a[11] * a[12]) - a[0] * (a[9] * a[15] - a[11] * a[13]) - a[3] * (a[8] * a[13] - a[9] * a[12]), a[2])
        + Times(a[0] * (a[9] * a[14] - a[10] * a[13]) - a[1] * (a[8] * a[14] - a[10] * a[12]) + a[2] * (a[8] * a[13] - a[9] * a[12]), a[3])
        == 0.0
    ensures Times(a[13] * (a[2] * a[7] - a[3] * a[6]) - a[14] * (a[1] * a[7] - a[3] * a[5]) + a[15] * (a[1] * a[6] - a[2] * a[5]), a[0])
        + Times(a[14] * (a[0] * a[7] - a[3] * a[4]) - a[12] * (a[2] * a[7] - a[3] * a[6]) - a[15] * (a[0] * a[6] - a[2] * a[4]), a[1])
        + Times(a[12] * (a[1] * a[7] - a[3] * a[5]) - a[13] * (a[0] * a[7] - a[3] * a[4]) + a[15] * (a[0] * a[5] - a[1] * a[4]), a[2])
        + Times(a[13] * (a[0] * a[6] - a[2] * a[4]) - a[12] * (a[1] * a[6] - a[2] * a[5]) - a[14] * (a[0] * a[5] - a[1] * a[4]), a[3])
        == 0.0
    ensures Times(a[10] * (a[1] * a[7] - a[3] * a[5]) - a[9] * (a[2] * a[7] - a[3] * a[6]) - a[11] * (a[1] * a[6] - a[2] * a[5]), a[0])
        + Times(a[8] * (a[2] * a[7] - a[3] * a[6]) - a[10] * (a[0] * a[7] - a[3] * a[4]) + a[11] * (a[0] * a[6] - a[2] * a[4]), a[1])
        + Times(a[9] * (a[0] * a[7] - a[3] * a[4]) - a[8] * (a[1] * a[7] - a[3] * a[5]) - a[11] * (a[0] * a[5] - a[1] * a[4]), a[2])
        + Times(a[8] * (a[1] * a[6] - a[2] * a[5]) - a[9] * (a[0] * a[6] - a[2] * a[4]) + a[10] * (a[0] * a[5] - a[1] * a[4]), a[3])
        == 0.0
  {
  }

  /** Column 0 of adj(a) * a is column 0 of det(a) times the identity. */
  lemma AdjugateTimesColumn0(a: Matrix4)
    ensures Dot(Adjugate(a), a, 0, 0) == Det(a)
    ensures Dot(Adjugate(a), a, 1, 0) == 0.0
    ensures Dot(Adjugate(a), a, 2, 0) == 0.0
    ensures Dot(Adjugate(a), a, 3, 0) == 0.0
  {
    AdjugateTimesPolynomial0(a);
    assert Adjugate(a)[0] == a[5] * (a[10] * a[15] - a[11] * a[14]) - a[6] * (a[9] * a[15] - a[11] * a[13]) + a[7] * (a[9] * a[14] - a[10] * a[13]);
    assert Adjugate(a)[4] == a[6] * (a[8] * a[15] - a[11] * a[12]) - a[4] * (a[10] * a[15] - a[11] * a[14]) - a[7] * (a[8] * a[14] - a[10] * a[12]);
    assert Adjugate(a)[8] == a[4] * (a[9] * a[15] - a[11] * a[13]) - a[5] * (a[8] * a[15] - a[11] * a[12]) + a[7] * (a[8] * a[13] - a[9] * a[12]);
    assert Adjugate(a)[12] == a[5] * (a[8] * a[14] - a[10] * a[12]) - a[4] * (a[9] * a[14] - a[10] * a[13]) - a[6] * (a[8] * a[13] - a[9] * a[12]);
    assert Adjugate(a)[1] == a[2] * (a[9] * a[15] - a[11] * a[13]) - a[1] * (a[10] * a[15] - a[11] * a[14]) - a[3] * (a[9] * a[14] - a[10] * a[13]);
    assert Adjugate(a)[5] == a[0] * (a[10] * a[15] - a[11] * a[14]) - a[2] * (a[8] * a[15] - a[11] * a[12]) + a[3] * (a[8] * a[14] - a[10] * a[12]);
    assert Adjugate(a)[9] == a[1] * (a[8] * a[15] - a[11] * a[12]) - a[0] * (a[9] * a[15] - a[11] * a[13]) - a[3] * (a[8] * a[13] - a[9] * a[12]);
    assert Adjugate(a)[13] == a[0] * (a[9] * a[14] - a[10] * a[13]) - a[1] * (a[8] * a[14] - a[10] * a[12]) + a[2] * (a[8] * a[13] - a[9] * a[12]);
    assert Adjugate(a)[2] == a[13] * (a[2] * a[7] - a[3] * a[6]) - a[14] * (a[1] * a[7] - a[3] * a[5]) + a[15] * (a[1] * a[6] - a[2] * a[5]);
    assert Adjugate(a)[6] == a[14] * (a[0] * a[7] - a[3] * a[4]) - a[12] * (a[2] * a[7] - a[3] * a[6]) - a[15] * (a[0] * a[6] - a[2] * a[4]);
    assert Adjugate(a)[10] == a[12] * (a[1] * a[7] - a[3] * a[5]) - a[13] * (a[0] * a[7] - a[3] * a[4]) + a[15] * (a[0] * a[5] - a[1] * a[4]);
    assert Adjugate(a)[14] == a[13] * (a[0] * a[6] - a[2] * a[4]) - a[12] * (a[1] * a[6] - a[2] * a[5]) - a[14] * (a[0] * a[5] - a[1] * a[4]);
    assert Adjugate(a)[3] == a[10] * (a[1] * a[7] - a[3] * a[5]) - a[9] * (a[2] * a[7] - a[3] * a[6]) - a[11] * (a[1] * a[6] - a[2] * a[5]);
    assert Adjugate(a)[7] == a[8] * (a[2] * a[7] - a[3] * a[6]) - a[10] * (a[0] * a[7] - a[3] * a[4]) + a[11] * (a[0] * a[6] - a[2] * a[4]);
    assert Adjugate(a)[11] == a[9] * (a[0] * a[7] - a[3] * a[4]) - a[8] * (a[1] * a[7] - a[3] * a[5]) - a[11] * (a[0] * a[5] - a[1] * a[4]);
    assert Adjugate(a)[15] == a[8] * (a[1] * a[6] - a[2] * a[5]) - a[9] * (a[0] * a[6] - a[2] * a[4]) + a[10] * (a[0] * a[5] - a[1] * a[4]);
    assert Det(a) == (a[0] * a[5] - a[1] * a[4]) * (a[10] * a[15] - a[11] * a[14]) - (a[0] * a[6] - a[2] * a[4]) * (a[9] * a[15] - a[11] * a[13]) + (a[0] * a[7] - a[3] * a[4]) * (a[9] * a[14] - a[10] * a[13]) + (a[1] * a[6] - a[2] * a[5]) * (a[8] * a[15] - a[11] * a[12]) - (a[1] * a[7] - a[3] * a[5]) * (a[8] * a[14] - a[10] * a[12]) + (a[2] * a[7] - a[3] * a[6]) * (a[8] * a[13] - a[9] * a[12]);
  }

  /** Column 1 of adj(a) * a written out as polynomials in the entries of a. */
  lemma AdjugateTimesPolynomial1(a: Matrix4)
    ensures Times(a[5] * (a[10] * a[15] - a[11] * a[14]) - a[6] * (a[9] * a[15] - a[11] * a[13]) + a[7] * (a[9] * a[14] - a[10] * a[13]), a[4])
        + Times(a[6] * (a[8] * a[15] - a[11] * a[12]) - a[4] * (a[10] * a[15] - a[11] * a[14]) - a[7] * (a[8] * a[14] - a[10] * a[12]), a[5])
        + Times(a[4] * (a[9] * a[15] - a[11] * a[13]) - a[5] * (a[8] * a[15] - a[11] * a[12]) + a[7] * (a[8] * a[13] - a[9] * a[12]), a[6])
        + Times(a[5] * (a[8] * a[14] - a[10] * a[12]) - a[4] * (a[9] * a[14] - a[10] * a[13]) - a[6] * (a[8] * a[13] - a[9] * a[12]), a[7])
        == 0.0
    ensures Times(a[2] * (a[9] * a[15] - a[11] * a[13]) - a[1] * (a[10] * a[15] - a[11] * a[14]) - a[3] * (a[9] * a[14] - a[10] * a[13]), a[4])
        + Times(a[0] * (a[10] * a[15] - a[11] * a[14]) - a[2] * (a[8] * a[15] - a[11] * a[12]) + a[3] * (a[8] * a[14] - a[10] * a[12]), a[5])
        + Times(a[1] * (a[8] * a[15] - a[11] * a[12]) - a[0] * (a[9] * a[15] - a[11] * a[13]) - a[3] * (a[8] * a[13] - a[9] * a[12]), a[6])
        + Times(a[0] * (a[9] * a[14] - a[10] * a[13]) - a[1] * (a[8] * a[14] - a[10] * a[12]) + a[2] * (a[8] * a[13] - a[9] * a[12]), a[7])
        == (a[0] * a[5] - a[1] * a[4]) * (a[10] * a[15] - a[11] * a[14]) - (a[0] * a[6] - a[2] * a[4]) * (a[9] * a[15] - a[11] * a[13]) + (a[0] * a[7] - a[3] * a[4]) * (a[9] * a[14] - a[10] * a[13]) + (a[1] * a[6] - a[2] * a[5]) * (a[8] * a[15] - a[11] * a[12]) - (a[1] * a[7] - a[3] * a[5]) * (a[8] * a[14] - a[10] * a[12]) + (a[2] * a[7] - a[3] * a[6]) * (a[8] * a[13] - a[9] * a[12])
    ensures Times(a[13] * (a[2] * a[7] - a[3] * a[6]) - a[14] * (a[1] * a[7] - a[3] * a[5]) + a[15] * (a[1] * a[6] - a[2] * a[5]), a[4])
        + Times(a[14] * (a[0] * a[7] - a[3] * a[4]) - a[12] * (a[2] * a[7] - a[3] * a[6]) - a[15] * (a[0] * a[6] - a[2] * a[4]), a[5])
        + Times(a[12] * (a[1] * a[7] - a[3] * a[5]) - a[13] * (a[0] * a[7] - a[3] * a[4]) + a[15] * (a[0] * a[5] - a[1] * a[4]), a[6])
        + Times(a[13] * (a[0] * a[6] - a[2] * a[4]) - a[12] * (a[1] * a[6] - a[2] * a[5]) - a[14] * (a[0] * a[5] - a[1] * a[4]), a[7])
        == 0.0
    ensures Times(a[10] * (a[1] * a[7] - a[3] * a[5]) - a[9] * (a[2] * a[7] - a[3] * a[6]) - a[11] * (a[1] * a[6] - a[2] * a[5]), a[4])
        + Times(a[8] * (a[2] * a[7] - a[3] * a[6]) - a[10] * (a[0] * a[7] - a[3] * a[4]) + a[11] * (a[0] * a[6] - a[2] * a[4]), a[5])
        + Times(a[9] * (a[0] * a[7] - a[3] * a[4]) - a[8] * (a[1] * a[7] - a[3] * a[5]) - a[11] * (a[0] * a[5] - a[1] * a[4]), a[6])
        + Times(a[8] * (a[1] * a[6] - a[2] * a[5]) - a[9] * (a[0] * a[6] - a[2] * a[4]) + a[10] * (a[0] * a[5] - a[1] * a[4]), a[7])
        == 0.0
  {
  }

  /** Column 1 of adj(a) * a is column 1 of det(a) times the identity. */
  lemma AdjugateTimesColumn1(a: Matrix4)
    ensures Dot(Adjugate(a), a, 0, 1) == 0.0
    ensures Dot(Adjugate(a), a, 1, 1) == Det(a)
    ensures Dot(Adjugate(a), a, 2, 1) == 0.0
    ensures Dot(Adjugate(a), a, 3, 1) == 0.0
  {
    AdjugateTimesPolynomial1(a);
    assert Adjugate(a)[0] == a[5] * (a[10] * a[15] - a[11] * a[14]) - a[6] * (a[9] * a[15] - a[11] * a[13]) + a[7] * (a[9] * a[14] - a[10] * a[13]);
    assert Adjugate(a)[4] == a[6] * (a[8] * a[15] - a[11] * a[12]) - a[4] * (a[10] * a[15] - a[11] * a[14]) - a[7] * (a[8] * a[14] - a[10] * a[12]);
    assert Adjugate(a)[8] == a[4] * (a[9] * a[15] - a[11] * a[13]) - a[5] * (a[8] * a[15] - a[11] * a[12]) + a[7] * (a[8] * a[13] - a[9] * a[12]);
    assert Adjugate(a)[12] == a[5] * (a[8] * a[14] - a[10] * a[12]) - a[4] * (a[9] * a[14] - a[10] * a[13]) - a[6] * (a[8] * a[13] - a[9] * a[12]);
    assert Adjugate(a)[1] == a[2] * (a[9] * a[15] - a[11] * a[13]) - a[1] * (a[10] * a[15] - a[11] * a[14]) - a[3] * (a[9] * a[14] - a[10] * a[13]);
    assert Adjugate(a)[5] == a[0] * (a[10] * a[15] - a[11] * a[14]) - a[2] * (a[8] * a[15] - a[11] * a[12]) + a[3] * (a[8] * a[14] - a[10] * a[12]);
    assert Adjugate(a)[9] == a[1] * (a[8] * a[15] - a[11] * a[12]) - a[0] * (a[9] * a[15] - a[11] * a[13]) - a[3] * (a[8] * a[13] - a[9] * a[12]);
    assert Adjugate(a)[13] == a[0] * (a[9] * a[14] - a[10] * a[13]) - a[1] * (a[8] * a[14] - a[10] * a[12]) + a[2] * (a[8] * a[13] - a[9] * a[12]);
    assert Adjugate(a)[2] == a[13] * (a[2] * a[7] - a[3] * a[6]) - a[14] * (a[1] * a[7] - a[3] * a[5]) + a[15] * (a[1] * a[6] - a[2] * a[5]);
    assert Adjugate(a)[6] == a[14] * (a[0] * a[7] - a[3] * a[4]) - a[12] * (a[2] * a[7] - a[3] * a[6]) - a[15] * (a[0] * a[6] - a[2] * a[4]);
    assert Adjugate(a)[10] == a[12] * (a[1] * a[7] - a[3] * a[5]) - a[13] * (a[0] * a[7] - a[3] * a[4]) + a[15] * (a[0] * a[5] - a[1] * a[4]);
    assert Adjugate(a)[14] == a[13] * (a[0] * a[6] - a[2] * a[4]) - a[12] * (a[1] * a[6] - a[2] * a[5]) - a[14] * (a[0] * a[5] - a[1] * a[4]);
    assert Adjugate(a)[3] == a[10] * (a[1] * a[7] - a[3] * a[5]) - a[9] * (a[2] * a[7] - a[3] * a[6]) - a[11] * (a[1] * a[6] - a[2] * a[5]);
    assert Adjugate(a)[7] == a[8] * (a[2] * a[7] - a[3] * a[6]) - a[10] * (a[0] * a[7] - a[3] * a[4]) + a[11] * (a[0] * a[6] - a[2] * a[4]);
    assert Adjugate(a)[11] == a[9] * (a[0] * a[7] - a[3] * a[4]) - a[8] * (a[1] * a[7] - a[3] * a[5]) - a[11] * (a[0] * a[5] - a[1] * a[4]);
    assert Adjugate(a)[15] == a[8] * (a[1] * a[6] - a[2] * a[5]) - a[9] * (a[0] * a[6] - a[2] * a[4]) + a[10] * (a[0] * a[5] - a[1] * a[4]);
    assert Det(a) == (a[0] * a[5] - a[1] * a[4]) * (a[10] * a[15] - a[11] * a[14]) - (a[0] * a[6] - a[2] * a[4]) * (a[9] * a[15] - a[11] * a[13]) + (a[0] * a[7] - a[3] * a[4]) * (a[9] * a[14] - a[10] * a[13]) + (a[1] * a[6] - a[2] * a[5]) * (a[8] * a[15] - a[11] * a[12]) - (a[1] * a[7] - a[3] * a[5]) * (a[8] * a[14] - a[10] * a[12]) + (a[2] * a[7] - a[3] * a[6]) * (a[8] * a[13] - a[9] * a[12]);
  }

  /** Column 2 of adj(a) * a written out as polynomials in the entries of a. */
  lemma AdjugateTimesPolynomial2(a: Matrix4)
    ensures Times(a[5] * (a[10] * a[15] - a[11] * a[14]) - a[6] * (a[9] * a[15] - a[11] * a[13]) + a[7] * (a[9] * a[14] - a[10] * a[13]), a[8])
        + Times(a[6] * (a[8] * a[15] - a[11] * a[12]) - a[4] * (a[10] * a[15] - a[11] * a[14]) - a[7] * (a[8] * a[14] - a[10] * a[12]), a[9])
        + Times(a[4] * (a[9] * a[15] - a[11] * a[13]) - a[5] * (a[8] * a[15] - a[11] * a[12]) + a[7] * (a[8] * a[13] - a[9] * a[12]), a[10])
        + Times(a[5] * (a[8] * a[14] - a[10] * a[12]) - a[4] * (a[9] * a[14] - a[10] * a[13]) - a[6] * (a[8] * a[13] - a[9] * a[12]), a[11])
        == 0.0
    ensures Times(a[2] * (a[9] * a[15] - a[11] * a[13]) - a[1] * (a[10] * a[15] - a[11] * a[14]) - a[3] * (a[9] * a[14] - a[10] * a[13]), a[8])
        + Times(a[0] * (a[10] * a[15] - a[11] * a[14]) - a[2] * (a[8] * a[15] - a[11] * a[12]) + a[3] * (a[8] * a[14] - a[10] * a[12]), a[9])
        + Times(a[1] * (a[8] * a[15] - a[11] * a[12]) - a[0] * (a[9] * a[15] - a[11] * a[13]) - a[3] * (a[8] * a[13] - a[9] * a[12]), a[10])
        + Times(a[0] * (a[9] * a[14] - a[10] * a[13]) - a[1] * (a[8] * a[14] - a[10] * a[12]) + a[2] * (a[8] * a[13] - a[9] * a[12]), a[11])
        == 0.0
    ensures Times(a[13] * (a[2] * a[7] - a[3] * a[6]) - a[14] * (a[1] * a[7] - a[3] * a[5]) + a[15] * (a[1] * a[6] - a[2] * a[5]), a[8])
        + Times(a[14] * (a[0] * a[7] - a[3] * a[4]) - a[12] * (a[2] * a[7] - a[3] * a[6]) - a[15] * (a[0] * a[6] - a[2] * a[4]), a[9])
        + Times(a[12] * (a[1] * a[7] - a[3] * a[5]) - a[13] * (a[0] * a[7] - a[3] * a[4]) + a[15] * (a[0] * a[5] - a[1] * a[4]), a[10])
        + Times(a[13] * (a[0] * a[6] - a[2] * a[4]) - a[12] * (a[1] * a[6] - a[2] * a[5]) - a[14] * (a[0] * a[5] - a[1] * a[4]), a[11])
        == (a[0] * a[5] - a[1] * a[4]) * (a[10] * a[15] - a[11] * a[14]) - (a[0] * a[6] - a[2] * a[4]) * (a[9] * a[15] - a[11] * a[13]) + (a[0] * a[7] - a[3] * a[4]) * (a[9] * a[14] - a[10] * a[13]) + (a[1] * a[6] - a[2] * a[5]) * (a[8] * a[15] - a[11] * a[12]) - (a[1] * a[7] - a[3] * a[5]) * (a[8] * a[14] - a[10] * a[12]) + (a[2] * a[7] - a[3] * a[6]) * (a[8] * a[13] - a[9] * a[12])
    ensures Times(a[10] * (a[1] * a[7] - a[3] * a[5]) - a[9] * (a[2] * a[7] - a[3] * a[6]) - a[11] * (a[1] * a[6] - a[2] * a[5]), a[8])
        + Times(a[8] * (a[2] * a[7] - a[3] * a[6]) - a[10] * (a[0] * a[7] - a[3] * a[4]) + a[11] * (a[0] * a[6] - a[2] * a[4]), a[9])
        + Times(a[9] * (a[0] * a[7] - a[3] * a[4]) - a[8] * (a[1] * a[7] - a[3] * a[5]) - a[11] * (a[0] * a[5] - a[1] * a[4]), a[10])
        + Times(a[8] * (a[1] * a[6] - a[2] * a[5]) - a[9] * (a[0] * a[6] - a[2] * a[4]) + a[10] * (a[0] * a[5] - a[1] * a[4]), a[11])
        == 0.0
  {
  }

  /** Column 2 of adj(a) * a is column 2 of det(a) times the identity. */
  lemma AdjugateTimesColumn2(a: Matrix4)
    ensures Dot(Adjugate(a), a, 0, 2) == 0.0
    ensures Dot(Adjugate(a), a, 1, 2) == 0.0
    ensures Dot(Adjugate(a), a, 2, 2) == Det(a)
    ensures Dot(Adjugate(a), a, 3, 2) == 0.0
  {
    AdjugateTimesPolynomial2(a);
    assert Adjugate(a)[0] == a[5] * (a[10] * a[15] - a[11] * a[14]) - a[6] * (a[9] * a[15] - a[11] * a[13]) + a[7] * (a[9] * a[14] - a[10] * a[13]);
    assert Adjugate(a)[4] == a[6] * (a[8] * a[15] - a[11] * a[12]) - a[4] * (a[10] * a[15] - a[11] * a[14]) - a[7] * (a[8] * a[14] - a[10] * a[12]);
    assert Adjugate(a)[8] == a[4] * (a[9] * a[15] - a[11] * a[13]) - a[5] * (a[8] * a[15] - a[11] * a[12]) + a[7] * (a[8] * a[13] - a[9] * a[12]);
    assert Adjugate(a)[12] == a[5] * (a[8] * a[14] - a[10] * a[12]) - a[4] * (a[9] * a[14] - a[10] * a[13]) - a[6] * (a[8] * a[13] - a[9] * a[12]);
    assert Adjugate(a)[1] == a[2] * (a[9] * a[15] - a[11] * a[13]) - a[1] * (a[10] * a[15] - a[11] * a[14]) - a[3] * (a[9] * a[14] - a[10] * a[13]);
    assert Adjugate(a)[5] == a[0] * (a[10] * a[15] - a[11] * a[14]) - a[2] * (a[8] * a[15] - a[11] * a[12]) + a[3] * (a[8] * a[14] - a[10] * a[12]);
    assert Adjugate(a)[9] == a[1] * (a[8] * a[15] - a[11] * a[12]) - a[0] * (a[9] * a[15] - a[11] * a[13]) - a[3] * (a[8] * a[13] - a[9] * a[12]);
    assert Adjugate(a)[13] == a[0] * (a[9] * a[14] - a[10] * a[13]) - a[1] * (a[8] * a[14] - a[10] * a[12]) + a[2] * (a[8] * a[13] - a[9] * a[12]);
    assert Adjugate(a)[2] == a[13] * (a[2] * a[7] - a[3] * a[6]) - a[14] * (a[1] * a[7] - a[3] * a[5]) + a[15] * (a[1] * a[6] - a[2] * a[5]);
    assert Adjugate(a)[6] == a[14] * (a[0] * a[7] - a[3] * a[4]) - a[12] * (a[2] * a[7] - a[3] * a[6]) - a[15] * (a[0] * a[6] - a[2] * a[4]);
    assert Adjugate(a)[10] == a[12] * (a[1] * a[7] - a[3] * a[5]) - a[13] * (a[0] * a[7] - a[3] * a[4]) + a[15] * (a[0] * a[5] - a[1] * a[4]);
    assert Adjugate(a)[14] == a[13] * (a[0] * a[6] - a[2] * a[4]) - a[12] * (a[1] * a[6] - a[2] * a[5]) - a[14] * (a[0] * a[5] - a[1] * a[4]);
    assert Adjugate(a)[3] == a[10] * (a[1] * a[7] - a[3] * a[5]) - a[9] * (a[2] * a[7] - a[3] * a[6]) - a[11] * (a[1] * a[6] - a[2] * a[5]);
    assert Adjugate(a)[7] == a[8] * (a[2] * a[7] - a[3] * a[6]) - a[10] * (a[0] * a[7] - a[3] * a[4]) + a[11] * (a[0] * a[6] - a[2] * a[4]);
    assert Adjugate(a)[11] == a[9] * (a[0] * a[7] - a[3] * a[4]) - a[8] * (a[1] * a[7] - a[3] * a[5]) - a[11] * (a[0] * a[5] - a[1] * a[4]);
    assert Adjugate(a)[15] == a[8] * (a[1] * a[6] - a[2] * a[5]) - a[9] * (a[0] * a[6] - a[2] * a[4]) + a[10] * (a[0] * a[5] - a[1] * a[4]);
    assert Det(a) == (a[0] * a[5] - a[1] * a[4]) * (a[10] * a[15] - a[11] * a[14]) - (a[0] * a[6] - a[2] * a[4]) * (a[9] * a[15] - a[11] * a[13]) + (a[0] * a[7] - a[3] * a[4]) * (a[9] * a[14] - a[10] * a[13]) + (a[1] * a[6] - a[2] * a[5]) * (a[8] * a[15] - a[11] * a[12]) - (a[1] * a[7] - a[3] * a[5]) * (a[8] * a[14] - a[10] * a[12]) + (a[2] * a[7] - a[3] * a[6]) * (a[8] * a[13] - a[9] * a[12]);
  }

  /** Column 3 of adj(a) * a written out as polynomials in the entries of a. */
  lemma AdjugateTimesPolynomial3(a: Matrix4)
    ensures Times(a[5] * (a[10] * a[15] - a[11] * a[14]) - a[6] * (a[9] * a[15] - a[11] * a[13]) + a[7] * (a[9] * a[14] - a[10] * a[13]), a[12])
        + Times(a[6] * (a[8] * a[15] - a[11] * a[12]) - a[4] * (a[10] * a[15] - a[11] * a[14]) - a[7] * (a[8] * a[14] - a[10] * a[12]), a[13])
        + Times(a[4] * (a[9] * a[15] - a[11] * a[13]) - a[5] * (a[8] * a[15] - a[11] * a[12]) + a[7] * (a[8] * a[13] - a[9] * a[12]), a[14])
        + Times(a[5] * (a[8] * a[14] - a[10] * a[12]) - a[4] * (a[9] * a[14] - a[10] * a[13]) - a[6] * (a[8] * a[13] - a[9] * a[12]), a[15])
        == 0.0
    ensures Times(a[2] * (a[9] * a[15] - a[11] * a[13]) - a[1] * (a[10] * a[15] - a[11] * a[14]) - a[3] * (a[9] * a[14] - a[10] * a[13]), a[12])
        + Times(a[0] * (a[10] * a[15] - a[11] * a[14]) - a[2] * (a[8] * a[15] - a[11] * a[12]) + a[3] * (a[8] * a[14] - a[10] * a[12]), a[13])
        + Times(a[1] * (a[8] * a[15] - a[11] * a[12]) - a[0] * (a[9] * a[15] - a[11] * a[13]) - a[3] * (a[8] * a[13] - a[9] * a[12]), a[14])
        + Times(a[0] * (a[9] * a[14] - a[10] * a[13]) - a[1] * (a[8] * a[14] - a[10] * a[12]) + a[2] * (a[8] * a[13] - a[9] * a[12]), a[15])
        == 0.0
    ensures Times(a[13] * (a[2] * a[7] - a[3] * a[6]) - a[14] * (a[1] * a[7] - a[3] * a[5]) + a[15] * (a[1] * a[6] - a[2] * a[5]), a[12])
        + Times(a[14] * (a[0] * a[7] - a[3] * a[4]) - a[12] * (a[2] * a[7] - a[3] * a[6]) - a[15] * (a[0] * a[6] - a[2] * a[4]), a[13])
        + Times(a[12] * (a[1] * a[7] - a[3] * a[5]) - a[13] * (a[0] * a[7] - a[3] * a[4]) + a[15] * (a[0] * a[5] - a[1] * a[4]), a[14])
        + Times(a[13] * (a[0] * a[6] - a[2] * a[4]) - a[12] * (a[1] * a[6] - a[2] * a[5]) - a[14] * (a[0] * a[5] - a[1] * a[4]), a[15])
        == 0.0
    ensures Times(a[10] * (a[1] * a[7] - a[3] * a[5]) - a[9] * (a[2] * a[7] - a[3] * a[6]) - a[11] * (a[1] * a[6] - a[2] * a[5]), a[12])
        + Times(a[8] * (a[2] * a[7] - a[3] * a[6]) - a[10] * (a[0] * a[7] - a[3] * a[4]) + a[11] * (a[0] * a[6] - a[2] * a[4]), a[13])
        + Times(a[9] * (a[0] * a[7] - a[3] * a[4]) - a[8] * (a[1] * a[7] - a[3] * a[5]) - a[11] * (a[0] * a[5] - a[1] * a[4]), a[14])
        + Times(a[8] * (a[1] * a[6] - a[2] * a[5]) - a[9] * (a[0] * a[6] - a[2] * a[4]) + a[10] * (a[0] * a[5] - a[1] * a[4]), a[15])
        == (a[0] * a[5] - a[1] * a[4]) * (a[10] * a[15] - a[11] * a[14]) - (a[0] * a[6] - a[2] * a[4]) * (a[9] * a[15] - a[11] * a[13]) + (a[0] * a[7] - a[3] * a[4]) * (a[9] * a[14] - a[10] * a[13]) + (a[1] * a[6] - a[2] * a[5]) * (a[8] * a[15] - a[11] * a[12]) - (a[1] * a[7] - a[3] * a[5]) * (a[8] * a[14] - a[10] * a[12]) + (a[2] * a[7] - a[3] * a[6]) * (a[8] * a[13] - a[9] * a[12])
  {
  }

  /** Column 3 of adj(a) * a is column 3 of det(a) times the identity. */
  lemma AdjugateTimesColumn3(a: Matrix4)
    ensures Dot(Adjugate(a), a, 0, 3) == 0.0
    ensures Dot(Adjugate(a), a, 1, 3) == 0.0
    ensures Dot(Adjugate(a), a, 2, 3) == 0.0
    ensures Dot(Adjugate(a), a, 3, 3) == Det(a)
  {
    AdjugateTimesPolynomial3(a);
    assert Adjugate(a)[0] == a[5] * (a[10] * a[15] - a[11] * a[14]) - a[6] * (a[9] * a[15] - a[11] * a[13]) + a[7] * (a[9] * a[14] - a[10] * a[13]);
    assert Adjugate(a)[4] == a[6] * (a[8] * a[15] - a[11] * a[12]) - a[4] * (a[10] * a[15] - a[11] * a[14]) - a[7] * (a[8] * a[14] - a[10] * a[12]);
    assert Adjugate(a)[8] == a[4] * (a[9] * a[15] - a[11] * a[13]) - a[5] * (a[8] * a[15] - a[11] * a[12]) + a[7] * (a[8] * a[13] - a[9] * a[12]);
    assert Adjugate(a)[12] == a[5] * (a[8] * a[14] - a[10] * a[12]) - a[4] * (a[9] * a[14] - a[10] * a[13]) - a[6] * (a[8] * a[13] - a[9] * a[12]);
    assert Adjugate(a)[1] == a[2] * (a[9] * a[15] - a[11] * a[13]) - a[1] * (a[10] * a[15] - a[11] * a[14]) - a[3] * (a[9] * a[14] - a[10] * a[13]);
    assert Adjugate(a)[5] == a[0] * (a[10] * a[15] - a[11] * a[14]) - a[2] * (a[8] * a[15] - a[11] * a[12]) + a[3] * (a[8] * a[14] - a[10] * a[12]);
    assert Adjugate(a)[9] == a[1] * (a[8] * a[15] - a[11] * a[12]) - a[0] * (a[9] * a[15] - a[11] * a[13]) - a[3] * (a[8] * a[13] - a[9] * a[12]);
    assert Adjugate(a)[13] == a[0] * (a[9] * a[14] - a[10] * a[13]) - a[1] * (a[8] * a[14] - a[10] * a[12]) + a[2] * (a[8] * a[13] - a[9] * a[12]);
    assert Adjugate(a)[2] == a[13] * (a[2] * a[7] - a[3] * a[6]) - a[14] * (a[1] * a[7] - a[3] * a[5]) + a[15] * (a[1] * a[6] - a[2] * a[5]);
    assert Adjugate(a)[6] == a[14] * (a[0] * a[7] - a[3] * a[4]) - a[12] * (a[2] * a[7] - a[3] * a[6]) - a[15] * (a[0] * a[6] - a[2] * a[4]);
    assert Adjugate(a)[10] == a[12] * (a[1] * a[7] - a[3] * a[5]) - a[13] * (a[0] * a[7] - a[3] * a[4]) + a[15] * (a[0] * a[5] - a[1] * a[4]);
    assert Adjugate(a)[14] == a[13] * (a[0] * a[6] - a[2] * a[4]) - a[12] * (a[1] * a[6] - a[2] * a[5]) - a[14] * (a[0] * a[5] - a[1] * a[4]);
    assert Adjugate(a)[3] == a[10] * (a[1] * a[7] - a[3] * a[5]) - a[9] * (a[2] * a[7] - a[3] * a[6]) - a[11] * (a[1] * a[6] - a[2] * a[5]);
    assert Adjugate(a)[7] == a[8] * (a[2] * a[7] - a[3] * a[6]) - a[10] * (a[0] * a[7] - a[3] * a[4]) + a[11] * (a[0] * a[6] - a[2] * a[4]);
    assert Adjugate(a)[11] == a[9] * (a[0] * a[7] - a[3] * a[4]) - a[8] * (a[1] * a[7] - a[3] * a[5]) - a[11] * (a[0] * a[5] - a[1] * a[4]);
    assert Adjugate(a)[15] == a[8] * (a[1] * a[6] - a[2] * a[5]) - a[9] * (a[0] * a[6] - a[2] * a[4]) + a[10] * (a[0] * a[5] - a[1] * a[4]);
    assert Det(a) == (a[0] * a[5] - a[1] * a[4]) * (a[10] * a[15] - a[11] * a[14]) - (a[0] * a[6] - a[2] * a[4]) * (a[9] * a[15] - a[11] * a[13]) + (a[0] * a[7] - a[3] * a[4]) * (a[9] * a[14] - a[10] * a[13]) + (a[1] * a[6] - a[2] * a[5]) * (a[8] * a[15] - a[11] * a[12]) - (a[1] * a[7] - a[3] * a[5]) * (a[8] * a[14] - a[10] * a[12]) + (a[2] * a[7] - a[3] * a[6]) * (a[8] * a[13] - a[9] * a[12]);
  }

  /** Column 0 of a * adj(a) written out as polynomials in the entries of a. */
  lemma TimesAdjugatePolynomial0(a: Matrix4)
    ensures Times(a[0], a[5] * (a[10] * a[15] - a[11] * a[14]) - a[6] * (a[9] * a[15] - a[11] * a[13]) + a[7] * (a[9] * a[14] - a[10] * a[13]))
        + Times(a[4], a[2] * (a[9] * a[15] - a[11] * a[13]) - a[1] * (a[10] * a[15] - a[11] * a[14]) - a[3] * (a[9] * a[14] - a[10] * a[13]))
        + Times(a[8], a[13] * (a[2] * a[7] - a[3] * a[6]) - a[14] * (a[1] * a[7] - a[3] * a[5]) + a[15] * (a[1] * a[6] - a[2] * a[5]))
        + Times(a[12], a[10] * (a[1] * a[7] - a[3] * a[5]) - a[9] * (a[2] * a[7] - a[3] * a[6]) - a[11] * (a[1] * a[6] - a[2] * a[5]))
        == (a[0] * a[5] - a[1] * a[4]) * (a[10] * a[15] - a[11] * a[14]) - (a[0] * a[6] - a[2] * a[4]) * (a[9] * a[15] - a[11] * a[13]) + (a[0] * a[7] - a[3] * a[4]) * (a[9] * a[14] - a[10] * a[13]) + (a[1] * a[6] - a[2] * a[5]) * (a[8] * a[15] - a[11] * a[12]) - (a[1] * a[7] - a[3] * a[5]) * (a[8] * a[14] - a[10] * a[12]) + (a[2] * a[7] - a[3] * a[6]) * (a[8] * a[13] - a[9] * a[12])
    ensures Times(a[1], a[5] * (a[10] * a[15] - a[11] * a[14]) - a[6] * (a[9] * a[15] - a[11] * a[13]) + a[7] * (a[9] * a[14] - a[10] * a[13]))
        + Times(a[5], a[2] * (a[9] * a[15] - a[11] * a[13]) - a[1] * (a[10] * a[15] - a[11] * a[14]) - a[3] * (a[9] * a[14] - a[10] * a[13]))
        + Times(a[9], a[13] * (a[2] * a[7] - a[3] * a[6]) - a[14] * (a[1] * a[7] - a[3] * a[5]) + a[15] * (a[1] * a[6] - a[2] * a[5]))
        + Times(a[13], a[10] * (a[1] * a[7] - a[3] * a[5]) - a[9] * (a[2] * a[7] - a[3] * a[6]) - a[11] * (a[1] * a[6] - a[2] * a[5]))
        == 0.0
    ensures Times(a[2], a[5] * (a[10] * a[15] - a[11] * a[14]) - a[6] * (a[9] * a[15] - a[11] * a[13]) + a[7] * (a[9] * a[14] - a[10] * a[13]))
        + Times(a[6], a[2] * (a[9] * a[15] - a[11] * a[13]) - a[1] * (a[10] * a[15] - a[11] * a[14]) - a[3] * (a[9] * a[14] - a[10] * a[13]))
        + Times(a[10], a[13] * (a[2] * a[7] - a[3] * a[6]) - a[14] * (a[1] * a[7] - a[3] * a[5]) + a[15] * (a[1] * a[6] - a[2] * a[5]))
        + Times(a[14], a[10] * (a[1] * a[7] - a[3] * a[5]) - a[9] * (a[2] * a[7] - a[3] * a[6]) - a[11] * (a[1] * a[6] - a[2] * a[5]))
        == 0.0
    ensures Times(a[3], a[5] * (a[10] * a[15] - a[11] * a[14]) - a[6] * (a[9] * a[15] - a[11] * a[13]) + a[7] * (a[9] * a[14] - a[10] * a[13]))
        + Times(a[7], a[2] * (a[9] * a[15] - a[11] * a[13]) - a[1] * (a[10] * a[15] - a[11] * a[14]) - a[3] * (a[9] * a[14] - a[10] * a[13]))
        + Times(a[11], a[13] * (a[2] * a[7] - a[3] * a[6]) - a[14] * (a[1] * a[7] - a[3] * a[5]) + a[15] * (a[1] * a[6] - a[2] * a[5]))
        + Times(a[15], a[10] * (a[1] * a[7] - a[3] * a[5]) - a[9] * (a[2] * a[7] - a[3] * a[6]) - a[11] * (a[1] * a[6] - a[2] * a[5]))
        == 0.0
  {
  }

  /** Column 0 of a * adj(a) is column 0 of det(a) times the identity. */
  lemma TimesAdjugateColumn0(a: Matrix4)
    ensures Dot(a, Adjugate(a), 0, 0) == Det(a)
    ensures Dot(a, Adjugate(a), 1, 0) == 0.0
    ensures Dot(a, Adjugate(a), 2, 0) == 0.0
    ensures Dot(a, Adjugate(a), 3, 0) == 0.0
  {
    TimesAdjugatePolynomial0(a);
    assert Adjugate(a)[0] == a[5] * (a[10] * a[15] - a[11] * a[14]) - a[6] * (a[9] * a[15] - a[11] * a[13]) + a[7] * (a[9] * a[14] - a[10] * a[13]);
    assert Adjugate(a)[1] == a[2] * (a[9] * a[15] - a[11] * a[13]) - a[1] * (a[10] * a[15] - a[11] * a[14]) - a[3] * (a[9] * a[14] - a[10] * a[13]);
    assert Adjugate(a)[2] == a[13] * (a[2] * a[7] - a[3] * a[6]) - a[14] * (a[1] * a[7] - a[3] * a[5]) + a[15] * (a[1] * a[6] - a[2] * a[5]);
    assert Adjugate(a)[3] == a[10] * (a[1] * a[7] - a[3] * a[5]) - a[9] * (a[2] * a[7] - a[3] * a[6]) - a[11] * (a[1] * a[6] - a[2] * a[5]);
    assert Det(a) == (a[0] * a[5] - a[1] * a[4]) * (a[10] * a[15] - a[11] * a[14]) - (a[0] * a[6] - a[2] * a[4]) * (a[9] * a[15] - a[11] * a[13]) + (a[0] * a[7] - a[3] * a[4]) * (a[9] * a[14] - a[10] * a[13]) + (a[1] * a[6] - a[2] * a[5]) * (a[8] * a[15] - a[11] * a[12]) - (a[1] * a[7] - a[3] * a[5]) * (a[8] * a[14] - a[10] * a[12]) + (a[2] * a[7] - a[3] * a[6]) * (a[8] * a[13] - a[9] * a[12]);
  }

  /** Column 1 of a * adj(a) written out as polynomials in the entries of a. */
  lemma TimesAdjugatePolynomial1(a: Matrix4)
    ensures Times(a[0], a[6] * (a[8] * a[15] - a[11] * a[12]) - a[4] * (a[10] * a[15] - a[11] * a[14]) - a[7] * (a[8] * a[14] - a[10] * a[12]))
        + Times(a[4], a[0] * (a[10] * a[15] - a[11] * a[14]) - a[2] * (a[8] * a[15] - a[11] * a[12]) + a[3] * (a[8] * a[14] - a[10] * a[12]))
        + Times(a[8], a[14] * (a[0] * a[7] - a[3] * a[4]) - a[12] * (a[2] * a[7] - a[3] * a[6]) - a[15] * (a[0] * a[6] - a[2] * a[4]))
        + Times(a[12], a[8] * (a[2] * a[7] - a[3] * a[6]) - a[10] * (a[0] * a[7] - a[3] * a[4]) + a[11] * (a[0] * a[6] - a[2] * a[4]))
        == 0.0
    ensures Times(a[1], a[6] * (a[8] * a[15] - a[11] * a[12]) - a[4] * (a[10] * a[15] - a[11] * a[14]) - a[7] * (a[8] * a[14] - a[10] * a[12]))
        + Times(a[5], a[0] * (a[10] * a[15] - a[11] * a[14]) - a[2] * (a[8] * a[15] - a[11] * a[12]) + a[3] * (a[8] * a[14] - a[10] * a[12]))
        + Times(a[9], a[14] * (a[0] * a[7] - a[3] * a[4]) - a[12] * (a[2] * a[7] - a[3] * a[6]) - a[15] * (a[0] * a[6] - a[2] * a[4]))
        + Times(a[13], a[8] * (a[2] * a[7] - a[3] * a[6]) - a[10] * (a[0] * a[7] - a[3] * a[4]) + a[11] * (a[0] * a[6] - a[2] * a[4]))
        == (a[0] * a[5] - a[1] * a[4]) * (a[10] * a[15] - a[11] * a[14]) - (a[0] * a[6] - a[2] * a[4]) * (a[9] * a[15] - a[11] * a[13]) + (a[0] * a[7] - a[3] * a[4]) * (a[9] * a[14] - a[10] * a[13]) + (a[1] * a[6] - a[2] * a[5]) * (a[8] * a[15] - a[11] * a[12]) - (a[1] * a[7] - a[3] * a[5]) * (a[8] * a[14] - a[10] * a[12]) + (a[2] * a[7] - a[3] * a[6]) * (a[8] * a[13] - a[9] * a[12])
    ensures Times(a[2], a[6] * (a[8] * a[15] - a[11] * a[12]) - a[4] * (a[10] * a[15] - a[11] * a[14]) - a[7] * (a[8] * a[14] - a[10] * a[12]))
        + Times(a[6], a[0] * (a[10] * a[15] - a[11] * a[14]) - a[2] * (a[8] * a[15] - a[11] * a[12]) + a[3] * (a[8] * a[14] - a[10] * a[12]))
        + Times(a[10], a[14] * (a[0] * a[7] - a[3] * a[4]) - a[12] * (a[2] * a[7] - a[3] * a[6]) - a[15] * (a[0] * a[6] - a[2] * a[4]))
        + Times(a[14], a[8] * (a[2] * a[7] - a[3] * a[6]) - a[10] * (a[0] * a[7] - a[3] * a[4]) + a[11] * (a[0] * a[6] - a[2] * a[4]))
        == 0.0
    ensures Times(a[3], a[6] * (a[8] * a[15] - a[11] * a[12]) - a[4] * (a[10] * a[15] - a[11] * a[14]) - a[7] * (a[8] * a[14] - a[10] * a[12]))
        + Times(a[7], a[0] * (a[10] * a[15] - a[11] * a[14]) - a[2] * (a[8] * a[15] - a[11] * a[12]) + a[3] * (a[8] * a[14] - a[10] * a[12]))
        + Times(a[11], a[14] * (a[0] * a[7] - a[3] * a[4]) - a[12] * (a[2] * a[7] - a[3] * a[6]) - a[15] * (a[0] * a[6] - a[2] * a[4]))
        + Times(a[15], a[8] * (a[2] * a[7] - a[3] * a[6]) - a[10] * (a[0] * a[7] - a[3] * a[4]) + a[11] * (a[0] * a[6] - a[2] * a[4]))
        == 0.0
  {
  }

  /** Column 1 of a * adj(a) is column 1 of det(a) times the identity. */
  lemma TimesAdjugateColumn1(a: Matrix4)
    ensures Dot(a, Adjugate(a), 0, 1) == 0.0
    ensures Dot(a, Adjugate(a), 1, 1) == Det(a)
    ensures Dot(a, Adjugate(a), 2, 1) == 0.0
    ensures Dot(a, Adjugate(a), 3, 1) == 0.0
  {
    TimesAdjugatePolynomial1(a);
    assert Adjugate(a)[4] == a[6] * (a[8] * a[15] - a[11] * a[12]) - a[4] * (a[10] * a[15] - a[11] * a[14]) - a[7] * (a[8] * a[14] - a[10] * a[12]);
    assert Adjugate(a)[5] == a[0] * (a[10] * a[15] - a[11] * a[14]) - a[2] * (a[8] * a[15] - a[11] * a[12]) + a[3] * (a[8] * a[14] - a[10] * a[12]);
    assert Adjugate(a)[6] == a[14] * (a[0] * a[7] - a[3] * a[4]) - a[12] * (a[2] * a[7] - a[3] * a[6]) - a[15] * (a[0] * a[6] - a[2] * a[4]);
    assert Adjugate(a)[7] == a[8] * (a[2] * a[7] - a[3] * a[6]) - a[10] * (a[0] * a[7] - a[3] * a[4]) + a[11] * (a[0] * a[6] - a[2] * a[4]);
    assert Det(a) == (a[0] * a[5] - a[1] * a[4]) * (a[10] * a[15] - a[11] * a[14]) - (a[0] * a[6] - a[2] * a[4]) * (a[9] * a[15] - a[11] * a[13]) + (a[0] * a[7] - a[3] * a[4]) * (a[9] * a[14] - a[10] * a[13]) + (a[1] * a[6] - a[2] * a[5]) * (a[8] * a[15] - a[11] * a[12]) - (a[1] * a[7] - a[3] * a[5]) * (a[8] * a[14] - a[10] * a[12]) + (a[2] * a[7] - a[3] * a[6]) * (a[8] * a[13] - a[9] * a[12]);
  }

  /** Column 2 of a * adj(a) written out as polynomials in the entries of a. */
  lemma TimesAdjugatePolynomial2(a: Matrix4)
    ensures Times(a[0], a[4] * (a[9] * a[15] - a[11] * a[13]) - a[5] * (a[8] * a[15] - a[11] * a[12]) + a[7] * (a[8] * a[13] - a[9] * a[12]))
        + Times(a[4], a[1] * (a[8] * a[15] - a[11] * a[12]) - a[0] * (a[9] * a[15] - a[11] * a[13]) - a[3] * (a[8] * a[13] - a[9] * a[12]))
        + Times(a[8], a[12] * (a[1] * a[7] - a[3] * a[5]) - a[13] * (a[0] * a[7] - a[3] * a[4]) + a[15] * (a[0] * a[5] - a[1] * a[4]))
        + Times(a[12], a[9] * (a[0] * a[7] - a[3] * a[4]) - a[8] * (a[1] * a[7] - a[3] * a[5]) - a[11] * (a[0] * a[5] - a[1] * a[4]))
        == 0.0
    ensures Times(a[1], a[4] * (a[9] * a[15] - a[11] * a[13]) - a[5] * (a[8] * a[15] - a[11] * a[12]) + a[7] * (a[8] * a[13] - a[9] * a[12]))
        + Times(a[5], a[1] * (a[8] * a[15] - a[11] * a[12]) - a[0] * (a[9] * a[15] - a[11] * a[13]) - a[3] * (a[8] * a[13] - a[9] * a[12]))
        + Times(a[9], a[12] * (a[1] * a[7] - a[3] * a[5]) - a[13] * (a[0] * a[7] - a[3] * a[4]) + a[15] * (a[0] * a[5] - a[1] * a[4]))
        + Times(a[13], a[9] * (a[0] * a[7] - a[3] * a[4]) - a[8] * (a[1] * a[7] - a[3] * a[5]) - a[11] * (a[0] * a[5] - a[1] * a[4]))
        == 0.0
    ensures Times(a[2], a[4] * (a[9] * a[15] - a[11] * a[13]) - a[5] * (a[8] * a[15] - a[11] * a[12]) + a[7] * (a[8] * a[13] - a[9] * a[12]))
        + Times(a[6], a[1] * (a[8] * a[15] - a[11] * a[12]) - a[0] * (a[9] * a[15] - a[11] * a[13]) - a[3] * (a[8] * a[13] - a[9] * a[12]))
        + Times(a[10], a[12] * (a[1] * a[7] - a[3] * a[5]) - a[13] * (a[0] * a[7] - a[3] * a[4]) + a[15] * (a[0] * a[5] - a[1] * a[4]))
        + Times(a[14], a[9] * (a[0] * a[7] - a[3] * a[4]) - a[8] * (a[1] * a[7] - a[3] * a[5]) - a[11] * (a[0] * a[5] - a[1] * a[4]))
        == (a[0] * a[5] - a[1] * a[4]) * (a[10] * a[15] - a[11] * a[14]) - (a[0] * a[6] - a[2] * a[4]) * (a[9] * a[15] - a[11] * a[13]) + (a[0] * a[7] - a[3] * a[4]) * (a[9] * a[14] - a[10] * a[13]) + (a[1] * a[6] - a[2] * a[5]) * (a[8] * a[15] - a[11] * a[12]) - (a[1] * a[7] - a[3] * a[5]) * (a[8] * a[14] - a[10] * a[12]) + (a[2] * a[7] - a[3] * a[6]) * (a[8] * a[13] - a[9] * a[12])
    ensures Times(a[3], a[4] * (a[9] * a[15] - a[11] * a[13]) - a[5] * (a[8] * a[15] - a[11] * a[12]) + a[7] * (a[8] * a[13] - a[9] * a[12]))
        + Times(a[7], a[1] * (a[8] * a[15] - a[11] * a[12]) - a[0] * (a[9] * a[15] - a[11] * a[13]) - a[3] * (a[8] * a[13] - a[9] * a[12]))
        + Times(a[11], a[12] * (a[1] * a[7] - a[3] * a[5]) - a[13] * (a[0] * a[7] - a[3] * a[4]) + a[15] * (a[0] * a[5] - a[1] * a[4]))
        + Times(a[15], a[9] * (a[0] * a[7] - a[3] * a[4]) - a[8] * (a[1] * a[7] - a[3] * a[5]) - a[11] * (a[0] * a[5] - a[1] * a[4]))
        == 0.0
  {
  }

  /** Column 2 of a * adj(a) is column 2 of det(a) times the identity. */
  lemma TimesAdjugateColumn2(a: Matrix4)
    ensures Dot(a, Adjugate(a), 0, 2) == 0.0
    ensures Dot(a, Adjugate(a), 1, 2) == 0.0
    ensures Dot(a, Adjugate(a), 2, 2) == Det(a)
    ensures Dot(a, Adjugate(a), 3, 2) == 0.0
  {
    TimesAdjugatePolynomial2(a);
    assert Adjugate(a)[8] == a[4] * (a[9] * a[15] - a[11] * a[13]) - a[5] * (a[8] * a[15] - a[11] * a[12]) + a[7] * (a[8] * a[13] - a[9] * a[12]);
    assert Adjugate(a)[9] == a[1] * (a[8] * a[15] - a[11] * a[12]) - a[0] * (a[9] * a[15] - a[11] * a[13]) - a[3] * (a[8] * a[13] - a[9] * a[12]);
    assert Adjugate(a)[10] == a[12] * (a[1] * a[7] - a[3] * a[5]) - a[13] * (a[0] * a[7] - a[3] * a[4]) + a[15] * (a[0] * a[5] - a[1] * a[4]);
    assert Adjugate(a)[11] == a[9] * (a[0] * a[7] - a[3] * a[4]) - a[8] * (a[1] * a[7] - a[3] * a[5]) - a[11] * (a[0] * a[5] - a[1] * a[4]);
    assert Det(a) == (a[0] * a[5] - a[1] * a[4]) * (a[10] * a[15] - a[11] * a[14]) - (a[0] * a[6] - a[2] * a[4]) * (a[9] * a[15] - a[11] * a[13]) + (a[0] * a[7] - a[3] * a[4]) * (a[9] * a[14] - a[10] * a[13]) + (a[1] * a[6] - a[2] * a[5]) * (a[8] * a[15] - a[11] * a[12]) - (a[1] * a[7] - a[3] * a[5]) * (a[8] * a[14] - a[10] * a[12]) + (a[2] * a[7] - a[3] * a[6]) * (a[8] * a[13] - a[9] * a[12]);
  }

  /** Column 3 of a * adj(a) written out as polynomials in the entries of a. */
  lemma TimesAdjugatePolynomial3(a: Matrix4)
    ensures Times(a[0], a[5] * (a[8] * a[14] - a[10] * a[12]) - a[4] * (a[9] * a[14] - a[10] * a[13]) - a[6] * (a[8] * a[13] - a[9] * a[12]))
        + Times(a[4], a[0] * (a[9] * a[14] - a[10] * a[13]) - a[1] * (a[8] * a[14] - a[10] * a[12]) + a[2] * (a[8] * a[13] - a[9] * a[12]))
        + Times(a[8], a[13] * (a[0] * a[6] - a[2] * a[4]) - a[12] * (a[1] * a[6] - a[2] * a[5]) - a[14] * (a[0] * a[5] - a[1] * a[4]))
        + Times(a[12], a[8] * (a[1] * a[6] - a[2] * a[5]) - a[9] * (a[0] * a[6] - a[2] * a[4]) + a[10] * (a[0] * a[5] - a[1] * a[4]))
        == 0.0
    ensures Times(a[1], a[5] * (a[8] * a[14] - a[10] * a[12]) - a[4] * (a[9] * a[14] - a[10] * a[13]) - a[6] * (a[8] * a[13] - a[9] * a[12]))
        + Times(a[5], a[0] * (a[9] * a[14] - a[10] * a[13]) - a[1] * (a[8] * a[14] - a[10] * a[12]) + a[2] * (a[8] * a[13] - a[9] * a[12]))
        + Times(a[9], a[13] * (a[0] * a[6] - a[2] * a[4]) - a[12] * (a[1] * a[6] - a[2] * a[5]) - a[14] * (a[0] * a[5] - a[1] * a[4]))
        + Times(a[13], a[8] * (a[1] * a[6] - a[2] * a[5]) - a[9] * (a[0] * a[6] - a[2] * a[4]) + a[10] * (a[0] * a[5] - a[1] * a[4]))
        == 0.0
    ensures Times(a[2], a[5] * (a[8] * a[14] - a[10] * a[12]) - a[4] * (a[9] * a[14] - a[10] * a[13]) - a[6] * (a[8] * a[13] - a[9] * a[12]))
        + Times(a[6], a[0] * (a[9] * a[14] - a[10] * a[13]) - a[1] * (a[8] * a[14] - a[10] * a[12]) + a[2] * (a[8] * a[13] - a[9] * a[12]))
        + Times(a[10], a[13] * (a[0] * a[6] - a[2] * a[4]) - a[12] * (a[1] * a[6] - a[2] * a[5]) - a[14] * (a[0] * a[5] - a[1] * a[4]))
        + Times(a[14], a[8] * (a[1] * a[6] - a[2] * a[5]) - a[9] * (a[0] * a[6] - a[2] * a[4]) + a[10] * (a[0] * a[5] - a[1] * a[4]))
        == 0.0
    ensures Times(a[3], a[5] * (a[8] * a[14] - a[10] * a[12]) - a[4] * (a[9] * a[14] - a[10] * a[13]) - a[6] * (a[8] * a[13] - a[9] * a[12]))
        + Times(a[7], a[0] * (a[9] * a[14] - a[10] * a[13]) - a[1] * (a[8] * a[14] - a[10] * a[12]) + a[2] * (a[8] * a[13] - a[9] * a[12]))
        + Times(a[11], a[13] * (a[0] * a[6] - a[2] * a[4]) - a[12] * (a[1] * a[6] - a[2] * a[5]) - a[14] * (a[0] * a[5] - a[1] * a[4]))
        + Times(a[15], a[8] * (a[1] * a[6] - a[2] * a[5]) - a[9] * (a[0] * a[6] - a[2] * a[4]) + a[10] * (a[0] * a[5] - a[1] * a[4]))
        == (a[0] * a[5] - a[1] * a[4]) * (a[10] * a[15] - a[11] * a[14]) - (a[0] * a[6] - a[2] * a[4]) * (a[9] * a[15] - a[11] * a[13]) + (a[0] * a[7] - a[3] * a[4]) * (a[9] * a[14] - a[10] * a[13]) + (a[1] * a[6] - a[2] * a[5]) * (a[8] * a[15] - a[11] * a[12]) - (a[1] * a[7] - a[3] * a[5]) * (a[8] * a[14] - a[10] * a[12]) + (a[2] * a[7] - a[3] * a[6]) * (a[8] * a[13] - a[9] * a[12])
  {
  }

  /** Column 3 of a * adj(a) is column 3 of det(a) times the identity. */
  lemma TimesAdjugateColumn3(a: Matrix4)
    ensures Dot(a, Adjugate(a), 0, 3) == 0.0
    ensures Dot(a, Adjugate(a), 1, 3) == 0.0
    ensures Dot(a, Adjugate(a), 2, 3) == 0.0
    ensures Dot(a, Adjugate(a), 3, 3) == Det(a)
  {
    TimesAdjugatePolynomial3(a);
    assert Adjugate(a)[12] == a[5] * (a[8] * a[14] - a[10] * a[12]) - a[4] * (a[9] * a[14] - a[10] * a[13]) - a[6] * (a[8] * a[13] - a[9] * a[12]);
    assert Adjugate(a)[13] == a[0] * (a[9] * a[14] - a[10] * a[13]) - a[1] * (a[8] * a[14] - a[10] * a[12]) + a[2] * (a[8] * a[13] - a[9] * a[12]);
    assert Adjugate(a)[14] == a[13] * (a[0] * a[6] - a[2] * a[4]) - a[12] * (a[1] * a[6] - a[2] * a[5]) - a[14] * (a[0] * a[5] - a[1] * a[4]);
    assert Adjugate(a)[15] == a[8] * (a[1] * a[6] - a[2] * a[5]) - a[9] * (a[0] * a[6] - a[2] * a[4]) + a[10] * (a[0] * a[5] - a[1] * a[4]);
    assert Det(a) == (a[0] * a[5] - a[1] * a[4]) * (a[10] * a[15] - a[11] * a[14]) - (a[0] * a[6] - a[2] * a[4]) * (a[9] * a[15] - a[11] * a[13]) + (a[0] * a[7] - a[3] * a[4]) * (a[9] * a[14] - a[10] * a[13]) + (a[1] * a[6] - a[2] * a[5]) * (a[8] * a[15] - a[11] * a[12]) - (a[1] * a[7] - a[3] * a[5]) * (a[8] * a[14] - a[10] * a[12]) + (a[2] * a[7] - a[3] * a[6]) * (a[8] * a[13] - a[9] * a[12]);
  }
  /** The adjugate times a is det(a) times the identity. */
  lemma AdjugateTimes(a: Matrix4)
    ensures Mul(Adjugate(a), a) == Scaled(IdentityMatrix(), Det(a))
  {
    AdjugateTimesColumn0(a);
    AdjugateTimesColumn1(a);
    AdjugateTimesColumn2(a);
    AdjugateTimesColumn3(a);
    EqualByEntries(Mul(Adjugate(a), a), Scaled(IdentityMatrix(), Det(a)));
  }

  /** a times the adjugate is det(a) times the identity, too. */
  lemma TimesAdjugate(a: Matrix4)
    ensures Mul(a, Adjugate(a)) == Scaled(IdentityMatrix(), Det(a))
  {
    TimesAdjugateColumn0(a);
    TimesAdjugateColumn1(a);
    TimesAdjugateColumn2(a);
    TimesAdjugateColumn3(a);
    EqualByEntries(Mul(a, Adjugate(a)), Scaled(IdentityMatrix(), Det(a)));
  }

  /** A scalar factor on the left factors of a four-term dot product can be taken outside. */
  lemma ScaleOutLeft(x0: real, x1: real, x2: real, x3: real, y0: real, y1: real, y2: real, y3: real, k: real)
    ensures Times(Times(x0, k), y0) + Times(Times(x1, k), y1) + Times(Times(x2, k), y2) + Times(Times(x3, k), y3)
         == Times(Times(x0, y0) + Times(x1, y1) + Times(x2, y2) + Times(x3, y3), k)
  {
  }

  /** A scalar factor on the right factors of a four-term dot product can be taken outside. */
  lemma ScaleOutRight(x0: real, x1: real, x2: real, x3: real, y0: real, y1: real, y2: real, y3: real, k: real)
    ensures Times(x0, Times(y0, k)) + Times(x1, Times(y1, k)) + Times(x2, Times(y2, k)) + Times(x3, Times(y3, k))
         == Times(Times(x0, y0) + Times(x1, y1) + Times(x2, y2) + Times(x3, y3), k)
  {
  }

  /** (k a) b = k (a b). */
  lemma MulScaledLeft(a: Matrix4, b: Matrix4, k: real)
    ensures Mul(Scaled(a, k), b) == Scaled(Mul(a, b), k)
  {
    ScaleOutLeft(At(a, 0, 0), At(a, 0, 1), At(a, 0, 2), At(a, 0, 3), At(b, 0, 0), At(b, 1, 0), At(b, 2, 0), At(b, 3, 0), k);
    ScaleOutLeft(At(a, 1, 0), At(a, 1, 1), At(a, 1, 2), At(a, 1, 3), At(b, 0, 0), At(b, 1, 0), At(b, 2, 0), At(b, 3, 0), k);
    ScaleOutLeft(At(a, 2, 0), At(a, 2, 1), At(a, 2, 2), At(a, 2, 3), At(b, 0, 0), At(b, 1, 0), At(b, 2, 0), At(b, 3, 0), k);
    ScaleOutLeft(At(a, 3, 0), At(a, 3, 1), At(a, 3, 2), At(a, 3, 3), At(b, 0, 0), At(b, 1, 0), At(b, 2, 0), At(b, 3, 0), k);
    ScaleOutLeft(At(a, 0, 0), At(a, 0, 1), At(a, 0, 2), At(a, 0, 3), At(b, 0, 1), At(b, 1, 1), At(b, 2, 1), At(b, 3, 1), k);
    ScaleOutLeft(At(a, 1, 0), At(a, 1, 1), At(a, 1, 2), At(a, 1, 3), At(b, 0, 1), At(b, 1, 1), At(b, 2, 1), At(b, 3, 1), k);
    ScaleOutLeft(At(a, 2, 0), At(a, 2, 1), At(a, 2, 2), At(a, 2, 3), At(b, 0, 1), At(b, 1, 1), At(b, 2, 1), At(b, 3, 1), k);
    ScaleOutLeft(At(a, 3, 0), At(a, 3, 1), At(a, 3, 2), At(a, 3, 3), At(b, 0, 1), At(b, 1, 1), At(b, 2, 1), At(b, 3, 1), k);
    ScaleOutLeft(At(a, 0, 0), At(a, 0, 1), At(a, 0, 2), At(a, 0, 3), At(b, 0, 2), At(b, 1, 2), At(b, 2, 2), At(b, 3, 2), k);
    ScaleOutLeft(At(a, 1, 0), At(a, 1, 1), At(a, 1, 2), At(a, 1, 3), At(b, 0, 2), At(b, 1, 2), At(b, 2, 2), At(b, 3, 2), k);
    ScaleOutLeft(At(a, 2, 0), At(a, 2, 1), At(a, 2, 2), At(a, 2, 3), At(b, 0, 2), At(b, 1, 2), At(b, 2, 2), At(b, 3, 2), k);
    ScaleOutLeft(At(a, 3, 0), At(a, 3, 1), At(a, 3, 2), At(a, 3, 3), At(b, 0, 2), At(b, 1, 2), At(b, 2, 2), At(b, 3, 2), k);
    ScaleOutLeft(At(a, 0, 0), At(a, 0, 1), At(a, 0, 2), At(a, 0, 3), At(b, 0, 3), At(b, 1, 3), At(b, 2, 3), At(b, 3, 3), k);
    ScaleOutLeft(At(a, 1, 0), At(a, 1, 1), At(a, 1, 2), At(a, 1, 3), At(b, 0, 3), At(b, 1, 3), At(b, 2, 3), At(b, 3, 3), k);
    ScaleOutLeft(At(a, 2, 0), At(a, 2, 1), At(a, 2, 2), At(a, 2, 3), At(b, 0, 3), At(b, 1, 3), At(b, 2, 3), At(b, 3, 3), k);
    ScaleOutLeft(At(a, 3, 0), At(a, 3, 1), At(a, 3, 2), At(a, 3, 3), At(b, 0, 3), At(b, 1, 3), At(b, 2, 3), At(b, 3, 3), k);
    EqualByEntries(Mul(Scaled(a, k), b), Scaled(Mul(a, b), k));
  }

  /** a (k b) = k (a b). */
  lemma MulScaledRight(a: Matrix4, b: Matrix4, k: real)
    ensures Mul(a, Scaled(b, k)) == Scaled(Mul(a, b), k)
  {
    ScaleOutRight(At(a, 0, 0), At(a, 0, 1), At(a, 0, 2), At(a, 0, 3), At(b, 0, 0), At(b, 1, 0), At(b, 2, 0), At(b, 3, 0), k);
    ScaleOutRight(At(a, 1, 0), At(a, 1, 1), At(a, 1, 2), At(a, 1, 3), At(b, 0, 0), At(b, 1, 0), At(b, 2, 0), At(b, 3, 0), k);
    ScaleOutRight(At(a, 2, 0), At(a, 2, 1), At(a, 2, 2), At(a, 2, 3), At(b, 0, 0), At(b, 1, 0), At(b, 2, 0), At(b, 3, 0), k);
    ScaleOutRight(At(a, 3, 0), At(a, 3, 1), At(a, 3, 2), At(a, 3, 3), At(b, 0, 0), At(b, 1, 0), At(b, 2, 0), At(b, 3, 0), k);
    ScaleOutRight(At(a, 0, 0), At(a, 0, 1), At(a, 0, 2), At(a, 0, 3), At(b, 0, 1), At(b, 1, 1), At(b, 2, 1), At(b, 3, 1), k);
    ScaleOutRight(At(a, 1, 0), At(a, 1, 1), At(a, 1, 2), At(a, 1, 3), At(b, 0, 1), At(b, 1, 1), At(b, 2, 1), At(b, 3, 1), k);
    ScaleOutRight(At(a, 2, 0), At(a, 2, 1), At(a, 2, 2), At(a, 2, 3), At(b, 0, 1), At(b, 1, 1), At(b, 2, 1), At(b, 3, 1), k);
    ScaleOutRight(At(a, 3, 0), At(a, 3, 1), At(a, 3, 2), At(a, 3, 3), At(b, 0, 1), At(b, 1, 1), At(b, 2, 1), At(b, 3, 1), k);
    ScaleOutRight(At(a, 0, 0), At(a, 0, 1), At(a, 0, 2), At(a, 0, 3), At(b, 0, 2), At(b, 1, 2), At(b, 2, 2), At(b, 3, 2), k);
    ScaleOutRight(At(a, 1, 0), At(a, 1, 1), At(a, 1, 2), At(a, 1, 3), At(b, 0, 2), At(b, 1, 2), At(b, 2, 2), At(b, 3, 2), k);
    ScaleOutRight(At(a, 2, 0), At(a, 2, 1), At(a, 2, 2), At(a, 2, 3), At(b, 0, 2), At(b, 1, 2), At(b, 2, 2), At(b, 3, 2), k);
    ScaleOutRight(At(a, 3, 0), At(a, 3, 1), At(a, 3, 2), At(a, 3, 3), At(b, 0, 2), At(b, 1, 2), At(b, 2, 2), At(b, 3, 2), k);
    ScaleOutRight(At(a, 0, 0), At(a, 0, 1), At(a, 0, 2), At(a, 0, 3), At(b, 0, 3), At(b, 1, 3), At(b, 2, 3), At(b, 3, 3), k);
    ScaleOutRight(At(a, 1, 0), At(a, 1, 1), At(a, 1, 2), At(a, 1, 3), At(b, 0, 3), At(b, 1, 3), At(b, 2, 3), At(b, 3, 3), k);
    ScaleOutRight(At(a, 2, 0), At(a, 2, 1), At(a, 2, 2), At(a, 2, 3), At(b, 0, 3), At(b, 1, 3), At(b, 2, 3), At(b, 3, 3), k);
    ScaleOutRight(At(a, 3, 0), At(a, 3, 1), At(a, 3, 2), At(a, 3, 3), At(b, 0, 3), At(b, 1, 3), At(b, 2, 3), At(b, 3, 3), k);
    EqualByEntries(Mul(a, Scaled(b, k)), Scaled(Mul(a, b), k));
  }

  /** When the determinant is not zero, what `invert` writes is a two-sided inverse. */
  lemma InverseIsInverse(a: Matrix4)
    requires Det(a) != 0.0
    ensures Mul(Inverse(a), a) == IdentityMatrix()
    ensures Mul(a, Inverse(a)) == IdentityMatrix()
  {
    var k := 1.0 / Det(a);
    AdjugateTimes(a);
    TimesAdjugate(a);
    MulScaledLeft(Adjugate(a), a, k);
    MulScaledRight(a, Adjugate(a), k);
    EqualByEntries(Scaled(Scaled(IdentityMatrix(), Det(a)), k), IdentityMatrix());
  }

  /** The identity is its own inverse. */
  lemma InverseIdentity()
    ensures Det(IdentityMatrix()) == 1.0
    ensures Inverse(IdentityMatrix()) == IdentityMatrix()
  {
    var id := IdentityMatrix();
    EqualByEntries(Inverse(id), id);
  }

  /**
   * The determinant of a Y rotation is c^2 + s^2, so a rotation by a real
   * angle (c^2 + s^2 = 1) is always invertible, its inverse is its
   * transpose, and its inverse-transpose (the normal matrix) is itself.
   */
  lemma RotationYInverse(c: real, s: real)
    ensures Det(RotationY(c, s)) == c * c + s * s
    ensures c * c + s * s == 1.0 ==> Inverse(RotationY(c, s)) == Transposed(RotationY(c, s))
    ensures c * c + s * s == 1.0 ==> Transposed(Inverse(RotationY(c, s))) == RotationY(c, s)
  {
    var r := RotationY(c, s);
    if c * c + s * s == 1.0 {
      EqualByEntries(Inverse(r), Transposed(r));
      TransposeInvolutive(r);
    }
  }
}
