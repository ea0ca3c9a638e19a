/** The mutable java.awt.geom.AffineTransform object that both composers
    build step by step. Each mutator updates the six entries in place the
    way the general (non-special-cased) state of the Java class does, and is
    proved to replace the current matrix `M` by `M * Op`. */
module AffineTransforms {
  import opened Geometry

  class AffineTransform {
    var m00: real
    var m10: real
    var m01: real
    var m11: real
    var m02: real
    var m12: real

    /** The current matrix. */
    function Entries(): Matrix
      reads this
    {
      Matrix(m00, m10, m01, m11, m02, m12)
    }

    /** `new AffineTransform()`: the identity. */
    constructor ()
      ensures Entries() == Identity()
    {
      m00, m10, m01, m11, m02, m12 := 1.0, 0.0, 0.0, 1.0, 0.0, 0.0;
    }

    /** `translate(tx, ty)`. */
    method Translate(tx: real, ty: real)
      modifies this
      ensures Entries() == Concatenate(old(Entries()), Translation(tx, ty))
    {
      m02 := tx * m00 + ty * m01 + m02;
      m12 := tx * m10 + ty * m11 + m12;
    }

    /** `rotate(theta)`, with `a` holding cos(theta) and sin(theta). */
    method Rotate(a: Angle)
      modifies this
      ensures Entries() == Concatenate(old(Entries()), Rotation(a))
    {
      var x0, x1 := m00, m01;
      m00 := a.cos * x0 + a.sin * x1;
      m01 := -a.sin * x0 + a.cos * x1;
      var y0, y1 := m10, m11;
      m10 := a.cos * y0 + a.sin * y1;
      m11 := -a.sin * y0 + a.cos * y1;
    }

    /** `rotate(theta, x, y)`: translate to the pivot, rotate, translate
        back; by `Geometry.RotationAboutIsConjugate` this is the rotation
        about `(x, y)`. */
    method RotateAbout(a: Angle, x: real, y: real)
      modifies this
      ensures Entries() == Concatenate(Concatenate(Concatenate(old(Entries()), Translation(x, y)), Rotation(a)), Translation(-x, -y))
    {
      Translate(x, y);
      Rotate(a);
      Translate(-x, -y);
    }

    /** `scale(sx, sy)`. */
    method Scale(sx: real, sy: real)
      modifies this
      ensures Entries() == Concatenate(old(Entries()), Scaling(sx, sy))
    {
      m00 := m00 * sx;
      m10 := m10 * sx;
      m01 := m01 * sy;
      m11 := m11 * sy;
    }
  }
}
