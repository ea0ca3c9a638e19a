/** Points, rotations and the 2-D affine maps of java.awt.geom.AffineTransform,
    as values. */
module Geometry {
  import opened Arith

  datatype Point = Point(x: real, y: real)

  /** A rotation by an angle theta, given by cos(theta) and sin(theta). In the
      canvas' y-down pixel space a positive theta turns clockwise. */
  datatype Angle = Angle(cos: real, sin: real) {
    /** cos and sin of one and the same angle. */
    predicate IsUnit()
    {
      cos * cos + sin * sin == 1.0
    }
  }

  /** The rotation by 0 radians: `Math.sin(0) == 0` and `Math.cos(0) == 1`. */
  const NoRotation := Angle(1.0, 0.0)

  /** The matrix
        [ m00  m01  m02 ]
        [ m10  m11  m12 ]
        [   0    0    1 ]
      with its entries in the order of the constructor
      `AffineTransform(m00, m10, m01, m11, m02, m12)`. */
  datatype Matrix = Matrix(m00: real, m10: real, m01: real, m11: real, m02: real, m12: real)

  function Apply(m: Matrix, p: Point): Point
  {
    Point(m.m00 * p.x + m.m01 * p.y + m.m02, m.m10 * p.x + m.m11 * p.y + m.m12)
  }

  function Identity(): Matrix
  {
    Matrix(1.0, 0.0, 0.0, 1.0, 0.0, 0.0)
  }

  function Translation(tx: real, ty: real): Matrix
  {
    Matrix(1.0, 0.0, 0.0, 1.0, tx, ty)
  }

  function Rotation(a: Angle): Matrix
  {
    Matrix(a.cos, a.sin, -a.sin, a.cos, 0.0, 0.0)
  }

  function Scaling(sx: real, sy: real): Matrix
  {
    Matrix(sx, 0.0, 0.0, sy, 0.0, 0.0)
  }

  /** The product `a * b`: the map that applies `b` first and `a` second.
      Every `translate`, `rotate` and `scale` call on an AffineTransform
      `tx` replaces `tx` by `tx * Op`, so the last call is the first one a
      point goes through. */
  function Concatenate(a: Matrix, b: Matrix): Matrix
  {
    Matrix(a.m00 * b.m00 + a.m01 * b.m10,
           a.m10 * b.m00 + a.m11 * b.m10,
           a.m00 * b.m01 + a.m01 * b.m11,
           a.m10 * b.m01 + a.m11 * b.m11,
           a.m00 * b.m02 + a.m01 * b.m12 + a.m02,
           a.m10 * b.m02 + a.m11 * b.m12 + a.m12)
  }

  /** Applying a product applies its right factor first. */
  lemma ApplyConcatenate(a: Matrix, b: Matrix, p: Point)
    ensures Apply(Concatenate(a, b), p) == Apply(a, Apply(b, p))
  {
    var ab, q, r := Concatenate(a, b), Apply(b, p), Apply(Concatenate(a, b), p);
    assert q == Point(b.m00 * p.x + b.m01 * p.y + b.m02, b.m10 * p.x + b.m11 * p.y + b.m12);
    assert r == Point(ab.m00 * p.x + ab.m01 * p.y + ab.m02, ab.m10 * p.x + ab.m11 * p.y + ab.m12);
    assert Apply(a, q) == Point(a.m00 * q.x + a.m01 * q.y + a.m02, a.m10 * q.x + a.m11 * q.y + a.m12);
    ComposeRow(a.m00, a.m01, a.m02, b.m00, b.m01, b.m02, b.m10, b.m11, b.m12, p.x, p.y);
    ComposeRow(a.m10, a.m11, a.m12, b.m00, b.m01, b.m02, b.m10, b.m11, b.m12, p.x, p.y);
    assert r.x == Apply(a, q).x && r.y == Apply(a, q).y;
  }

  /** One row of `ApplyConcatenate`, with every entry named. */
  lemma ComposeRow(r0: real, r1: real, r2: real, b00: real, b01: real, b02: real,
                   b10: real, b11: real, b12: real, x: real, y: real)
    ensures (r0 * b00 + r1 * b10) * x + (r0 * b01 + r1 * b11) * y + (r0 * b02 + r1 * b12 + r2)
         == r0 * (b00 * x + b01 * y + b02) + r1 * (b10 * x + b11 * y + b12) + r2
  {
    Distribute(x, r0 * b00 + r1 * b10, r0 * b00, r1 * b10, 0.0);
    Distribute(y, r0 * b01 + r1 * b11, r0 * b01, r1 * b11, 0.0);
    Distribute(r0, b00 * x + b01 * y + b02, b00 * x, b01 * y, b02);
    Distribute(r1, b10 * x + b11 * y + b12, b10 * x, b11 * y, b12);
  }

  /** Post-concatenating a translation moves only the offset column. */
  lemma ThenTranslate(m: Matrix, u: real, v: real)
    ensures Concatenate(m, Translation(u, v))
         == Matrix(m.m00, m.m10, m.m01, m.m11, m.m00 * u + m.m01 * v + m.m02, m.m10 * u + m.m11 * v + m.m12)
  {
    var r := Concatenate(m, Translation(u, v));
    assert r.m00 == m.m00 * 1.0 + m.m01 * 0.0 == m.m00;
    assert r.m10 == m.m10 * 1.0 + m.m11 * 0.0 == m.m10;
    assert r.m01 == m.m00 * 0.0 + m.m01 * 1.0 == m.m01;
    assert r.m11 == m.m10 * 0.0 + m.m11 * 1.0 == m.m11;
  }
  /** Post-concatenating a scale multiplies the columns of the linear part. */
  lemma ThenScale(m: Matrix, sx: real, sy: real)
    ensures Concatenate(m, Scaling(sx, sy))
         == Matrix(m.m00 * sx, m.m10 * sx, m.m01 * sy, m.m11 * sy, m.m02, m.m12)
  {
  }
  /** A rotation after a translation keeps the translation as the offset. */
  lemma ThenRotate(x: real, y: real, a: Angle)
    ensures Concatenate(Translation(x, y), Rotation(a)) == Matrix(a.cos, a.sin, -a.sin, a.cos, x, y)
  {
  }

  /** The two ways of writing an image coordinate of a pivot placement,
      with the products named so that the solver treats them as atoms. */
  lemma OffsetX(A: real, B: real, nB: real, d: real, px: real, py: real, ux: real, uy: real)
    requires nB == -B
    ensures A * px + nB * py + (d - A * ux + B * uy) == d + A * (px - ux) - B * (py - uy)
  {
  }
  lemma OffsetY(A: real, B: real, d: real, px: real, py: real, ux: real, uy: real)
    ensures A * px + B * py + (d - A * ux - B * uy) == d + A * (px - ux) + B * (py - uy)
  {
  }

  /** The rotation by `a` about the pivot `(x, y)`, in closed form. */
  function RotationAbout(a: Angle, x: real, y: real): Matrix
  {
    Matrix(a.cos, a.sin, -a.sin, a.cos,
           x - a.cos * x + a.sin * y,
           y - a.sin * x - a.cos * y)
  }

  /** The pivot stays where it is and every other point turns about it. */
  lemma RotationAboutTurnsAboutPivot(a: Angle, x: real, y: real, p: Point)
    ensures Apply(RotationAbout(a, x, y), Point(x, y)) == Point(x, y)
    ensures Apply(RotationAbout(a, x, y), p)
         == Point(x + a.cos * (p.x - x) - a.sin * (p.y - y), y + a.sin * (p.x - x) + a.cos * (p.y - y))
  {
    OffsetX(a.cos, a.sin, -a.sin, x, p.x, p.y, x, y);
    OffsetY(a.sin, a.cos, y, p.x, p.y, x, y);
    OffsetX(a.cos, a.sin, -a.sin, x, x, y, x, y);
    OffsetY(a.sin, a.cos, y, x, y, x, y);
  }

  /** `rotate(theta, x, y)` is `translate(x, y)`, `rotate(theta)`,
      `translate(-x, -y)`. */
  lemma RotationAboutIsConjugate(a: Angle, x: real, y: real)
    ensures Concatenate(Concatenate(Translation(x, y), Rotation(a)), Translation(-x, -y)) == RotationAbout(a, x, y)
  {
    var c, s := a.cos, a.sin;
    ThenRotate(x, y, a);
    ThenTranslate(Matrix(c, s, -s, c, x, y), -x, -y);
    NegArg(c, x);
    NegArg(-s, y);
    NegArg(s, x);
    NegArg(c, y);
    NegLeft(s, y);
  }

  /** The placement that scales by `(sx, sy)` and then rotates by `a`, both
      about the source pivot `src`, and carries `src` onto the target point
      `dst`, in closed form. Both composers build a transform of this shape. */
  function PivotPlacement(src: Point, dst: Point, a: Angle, sx: real, sy: real): Matrix
  {
    Matrix(a.cos * sx, a.sin * sx, -a.sin * sy, a.cos * sy,
           dst.x - a.cos * sx * src.x + a.sin * sy * src.y,
           dst.y - a.sin * sx * src.x - a.cos * sy * src.y)
  }

  /** What a pivot placement does to a point: its offset from `src` is scaled
      by `(sx, sy)`, turned by `a` and laid off from `dst`. In particular the
      pivot `src` lands on `dst`, whatever the rotation. */
  lemma PivotPlacementMaps(src: Point, dst: Point, a: Angle, sx: real, sy: real, p: Point)
    ensures Apply(PivotPlacement(src, dst, a, sx, sy), p)
         == Point(dst.x + a.cos * sx * (p.x - src.x) - a.sin * sy * (p.y - src.y),
                  dst.y + a.sin * sx * (p.x - src.x) + a.cos * sy * (p.y - src.y))
  {
    NegLeft(a.sin, sy);
    OffsetX(a.cos * sx, a.sin * sy, -a.sin * sy, dst.x, p.x, p.y, src.x, src.y);
    OffsetY(a.sin * sx, a.cos * sy, dst.y, p.x, p.y, src.x, src.y);
  }

  lemma PivotPlacementFixesPivot(src: Point, dst: Point, a: Angle, sx: real, sy: real)
    ensures Apply(PivotPlacement(src, dst, a, sx, sy), src) == dst
  {
    PivotPlacementMaps(src, dst, a, sx, sy, src);
  }

  /** The call sequence of the anchor-pivot composer, started on a fresh
      transform, with `m1` ... `m5` the matrix after each call:
      `translate(x1, y1)`, `translate(x2, y2)`, `rotate`, `scale(sx, sy)`,
      `translate(u, v)` back by the source pivot. The result is the pivot
      placement that carries `src` onto `(x1 + x2, y1 + y2)`. */
  lemma AnchorChainIsPivotPlacement(m1: Matrix, m2: Matrix, m3: Matrix, m4: Matrix, m5: Matrix,
                                    src: Point, x1: real, y1: real, x2: real, y2: real,
                                    a: Angle, sx: real, sy: real, u: real, v: real)
    requires m1 == Concatenate(Identity(), Translation(x1, y1))
    requires m2 == Concatenate(m1, Translation(x2, y2))
    requires m3 == Concatenate(m2, Rotation(a))
    requires m4 == Concatenate(m3, Scaling(sx, sy))
    requires u == -src.x && v == -src.y
    requires m5 == Concatenate(m4, Translation(u, v))
    ensures m5 == PivotPlacement(src, Point(x1 + x2, y1 + y2), a, sx, sy)
  {
    var c, s := a.cos, a.sin;
    var x, y := x1 + x2, y1 + y2;
    assert m1 == Translation(x1, y1) by {
      ThenTranslate(Identity(), x1, y1);
    }
    assert m2 == Translation(x, y) by {
      ThenTranslate(Translation(x1, y1), x2, y2);
    }
    assert m3 == Matrix(c, s, -s, c, x, y) by {
      ThenRotate(x, y, a);
    }
    var n := Matrix(c * sx, s * sx, -s * sy, c * sy, x, y);
    assert m4 == n by {
      ThenScale(Matrix(c, s, -s, c, x, y), sx, sy);
    }
    ThenTranslate(n, u, v);
    NegLeft(s, sy);
    NegArg(c * sx, src.x);
    NegArg(-s * sy, src.y);
    NegArg(s * sx, src.x);
    NegArg(c * sy, src.y);
  }

  /** The call sequence of the centre-pivot composer, started on a fresh
      transform, with `m1` ... `m5` the matrix after each step:
      `translate(x1, y1)`, then `rotate(theta, px, py)` as its three steps
      `translate(px, py)`, `rotate`, `translate(-px, -py)`, then
      `scale(k, k)`. When the pivot `(px, py)` is where the scale puts the
      source point `src`, the result is the pivot placement that carries
      `src` onto `(x1 + px, y1 + py)`. */
  lemma CentreChainIsPivotPlacement(m1: Matrix, m2: Matrix, m3: Matrix, m4: Matrix, m5: Matrix,
                                    src: Point, x1: real, y1: real, px: real, py: real, a: Angle, k: real)
    requires k * src.x == px && k * src.y == py
    requires m1 == Concatenate(Identity(), Translation(x1, y1))
    requires m2 == Concatenate(m1, Translation(px, py))
    requires m3 == Concatenate(m2, Rotation(a))
    requires m4 == Concatenate(m3, Translation(-px, -py))
    requires m5 == Concatenate(m4, Scaling(k, k))
    ensures m5 == PivotPlacement(src, Point(x1 + px, y1 + py), a, k, k)
  {
    var c, s := a.cos, a.sin;
    var x, y := x1 + px, y1 + py;
    ThenTranslate(Identity(), x1, y1);
    ThenTranslate(Translation(x1, y1), px, py);
    ThenRotate(x, y, a);
    ThenTranslate(Matrix(c, s, -s, c, x, y), -px, -py);
    var ox, oy := c * (-px) + (-s) * (-py) + x, s * (-px) + c * (-py) + y;
    ThenScale(Matrix(c, s, -s, c, ox, oy), k, k);
    Regroup(c, s, k, src.x, src.y, px, py);
  }

  /** The offset of the centre chain, regrouped once the pivot is known to
      be the scaled source point. */
  lemma Regroup(c: real, s: real, k: real, ux: real, uy: real, px: real, py: real)
    requires k * ux == px && k * uy == py
    ensures c * (-px) + (-s) * (-py) == -(c * k) * ux + (s * k) * uy
    ensures s * (-px) + c * (-py) == -(s * k) * ux - (c * k) * uy
  {
    assert c * px == (c * k) * ux;
    assert s * py == (s * k) * uy;
    assert s * px == (s * k) * ux;
    assert c * py == (c * k) * uy;
  }
  /** Squared Euclidean distance. */
  function Dist2(p: Point, q: Point): real
  {
    (p.x - q.x) * (p.x - q.x) + (p.y - q.y) * (p.y - q.y)
  }

  /** Without rotation a pivot placement has no shear: it scales each axis
      on its own and then translates. */
  lemma AxisAlignedPlacement(src: Point, dst: Point, sx: real, sy: real)
    ensures PivotPlacement(src, dst, NoRotation, sx, sy)
         == Concatenate(Translation(dst.x - sx * src.x, dst.y - sy * src.y), Scaling(sx, sy))
  {
    ThenScale(Translation(dst.x - sx * src.x, dst.y - sy * src.y), sx, sy);
    assert 1.0 * sx == sx && 0.0 * sx == 0.0 && -0.0 * sy == 0.0 && 1.0 * sy == sy;
    assert 1.0 * sx * src.x == sx * src.x && 0.0 * sy * src.y == 0.0;
    assert 0.0 * sx * src.x == 0.0 && 1.0 * sy * src.y == sy * src.y;
  }

  /** A true rotation keeps the length of every offset. */
  lemma RotationKeepsLength(a: Angle, dx: real, dy: real)
    requires a.IsUnit()
    ensures (a.cos * dx - a.sin * dy) * (a.cos * dx - a.sin * dy) + (a.sin * dx + a.cos * dy) * (a.sin * dx + a.cos * dy)
         == dx * dx + dy * dy
  {
    var c, s := a.cos, a.sin;
    assert (c * dx - s * dy) * (c * dx - s * dy) == c * c * (dx * dx) - 2.0 * (c * s) * (dx * dy) + s * s * (dy * dy);
    assert (s * dx + c * dy) * (s * dx + c * dy) == s * s * (dx * dx) + 2.0 * (c * s) * (dx * dy) + c * c * (dy * dy);
    assert c * c * (dx * dx) + s * s * (dx * dx) == (c * c + s * s) * (dx * dx);
    assert c * c * (dy * dy) + s * s * (dy * dy) == (c * c + s * s) * (dy * dy);
  }

  /** The squared length of an offset scaled by `k` and turned by a true
      rotation. */
  lemma ScaledRotationLength(a: Angle, k: real, dx: real, dy: real)
    requires a.IsUnit()
    ensures var u, v := (a.cos * k) * dx + (-a.sin * k) * dy, (a.sin * k) * dx + (a.cos * k) * dy;
            u * u + v * v == k * k * (dx * dx + dy * dy)
  {
    var c, s := a.cos, a.sin;
    var e, f := c * dx - s * dy, s * dx + c * dy;
    assert (c * k) * dx + (-s * k) * dy == k * e;
    assert (s * k) * dx + (c * k) * dy == k * f;
    assert (k * e) * (k * e) + (k * f) * (k * f) == k * k * (e * e + f * f);
    RotationKeepsLength(a, dx, dy);
  }

  /** A matrix whose linear part is `k` times a true rotation multiplies
      every distance by `|k|`. */
  lemma ScaledRotationIsSimilarity(m: Matrix, a: Angle, k: real, p: Point, q: Point)
    requires a.IsUnit()
    requires m.m00 == a.cos * k && m.m01 == -a.sin * k && m.m10 == a.sin * k && m.m11 == a.cos * k
    ensures Dist2(Apply(m, p), Apply(m, q)) == k * k * Dist2(p, q)
  {
    var dx, dy := p.x - q.x, p.y - q.y;
    var u, v := Apply(m, p).x - Apply(m, q).x, Apply(m, p).y - Apply(m, q).y;
    assert u == m.m00 * dx + m.m01 * dy;
    assert v == m.m10 * dx + m.m11 * dy;
    ScaledRotationLength(a, k, dx, dy);
  }

  /** With the same factor `k` on both axes and a true rotation, a pivot
      placement is a similarity: every distance is multiplied by `|k|`. */
  lemma UniformPlacementIsSimilarity(src: Point, dst: Point, a: Angle, k: real, p: Point, q: Point)
    requires a.IsUnit()
    ensures Dist2(Apply(PivotPlacement(src, dst, a, k, k), p), Apply(PivotPlacement(src, dst, a, k, k), q))
         == k * k * Dist2(p, q)
  {
    ScaledRotationIsSimilarity(PivotPlacement(src, dst, a, k, k), a, k, p, q);
  }
}
