/** The affine transform algebra of the 2D context (src/canvas.h:30-70).

    A C `float` argument is modelled by `Float`: either a finite value, taken
    as an exact real, or one of NaN and the two infinities, which every
    transform operation refuses. A committed matrix is a `Matrix2D` over
    reals, so it is finite by construction. */
module CanvasMatrix {

  import opened Wrappers

  /** A C `float` as the canvas rules see it: finite, or NaN / +-Infinity. */
  datatype Float = Finite(value: real) | NonFinite

  /** True for a finite value in the closed range 0.0 .. 1.0 (globalAlpha,
      colour-stop offsets). */
  predicate InUnitRange(v: Float)
  {
    v.Finite? && 0.0 <= v.value <= 1.0
  }

  /** The matrix
          a c e
          b d f
          0 0 1
      of `CanvasMatrix2D` (src/canvas.h:33-36), with exact real components. */
  datatype Matrix2D = Matrix2D(a: real, b: real, c: real, d: real, e: real, f: real)

  /** A `CanvasMatrix2D` as a caller passes it in (the DOMMatrix2DInit of
      setTransform): six C floats, any of which may be non-finite. */
  datatype MatrixInit = MatrixInit(a: Float, b: Float, c: Float, d: Float, e: Float, f: Float)
  {
    /** The check every transform operation makes before committing. */
    predicate IsFinite()
    {
      a.Finite? && b.Finite? && c.Finite? && d.Finite? && e.Finite? && f.Finite?
    }
  }

  datatype Point = Point(x: real, y: real)

  function Identity(): Matrix2D
  {
    Matrix2D(1.0, 0.0, 0.0, 1.0, 0.0, 0.0)
  }

  /** Maps a point by the matrix: (a x + c y + e, b x + d y + f). */
  function Apply(m: Matrix2D, p: Point): Point
  {
    Point(m.a * p.x + m.c * p.y + m.e, m.b * p.x + m.d * p.y + m.f)
  }

  /** The product m . t of two affine matrices: the transform that maps a
      point by t first and then by m (ApplyMultiply). The identity is
      neutral on either side. */
  function Multiply(m: Matrix2D, t: Matrix2D): (r: Matrix2D)
    ensures t == Identity() ==> r == m
    ensures m == Identity() ==> r == t
  {
    Matrix2D(m.a * t.a + m.c * t.b,
             m.b * t.a + m.d * t.b,
             m.a * t.c + m.c * t.d,
             m.b * t.c + m.d * t.d,
             m.a * t.e + m.c * t.f + m.e,
             m.b * t.e + m.d * t.f + m.f)
  }

  /** The transform that scale(x, y) adds: it stretches the x axis by x
      and the y axis by y. */
  function Scaling(x: real, y: real): (r: Matrix2D)
    ensures forall p :: Apply(r, p) == Point(x * p.x, y * p.y)
  {
    Matrix2D(x, 0.0, 0.0, y, 0.0, 0.0)
  }

  /** The transform that translate(x, y) adds: it moves every point by
      (x, y). */
  function Translation(x: real, y: real): (r: Matrix2D)
    ensures forall p :: Apply(r, p) == Point(p.x + x, p.y + y)
  {
    Matrix2D(1.0, 0.0, 0.0, 1.0, x, y)
  }

  /** The transform that rotate(angle) adds, given cos(angle) and
      sin(angle). It turns the unit x vector to (cos, sin) and the unit y
      vector to (-sin, cos): with the canvas's y axis pointing down, a
      positive angle turns clockwise on screen. */
  function Rotation(cos: real, sin: real): (r: Matrix2D)
    ensures forall p {:trigger Apply(r, p)} ::
              Apply(r, p) == Point(cos * p.x - sin * p.y, sin * p.x + cos * p.y)
    ensures Apply(r, Point(1.0, 0.0)) == Point(cos, sin)
    ensures Apply(r, Point(0.0, 1.0)) == Point(-sin, cos)
  {
    Matrix2D(cos, sin, -sin, cos, 0.0, 0.0)
  }

  /** The validated form of a matrix argument: its exact value when all six
      components are finite, and None when any of them is NaN or infinite. */
  function ToMatrix(m: MatrixInit): (r: Option<Matrix2D>)
    ensures r.Some? <==> m.IsFinite()
    ensures r.Some? ==> ToInit(r.value) == m
  {
    if m.IsFinite()
    then Some(Matrix2D(m.a.value, m.b.value, m.c.value, m.d.value, m.e.value, m.f.value))
    else None
  }

  /** The inverse direction of ToMatrix: a committed matrix as a caller's
      CanvasMatrix2D. */
  function ToInit(m: Matrix2D): MatrixInit
  {
    MatrixInit(Finite(m.a), Finite(m.b), Finite(m.c), Finite(m.d), Finite(m.e), Finite(m.f))
  }

  /** Passing back a matrix obtained from getTransform is always accepted
      and yields exactly that matrix. */
  lemma ToMatrixToInit(m: Matrix2D)
    ensures ToMatrix(ToInit(m)) == Some(m)
  {
  }

  /** One row of a product applied to a point, multiplied out:
      distributivity and associativity of real multiplication, the only
      non-linear facts the matrix proofs need. */
  lemma RowOfProduct(m1: real, m2: real, n: real, t1: real, t2: real, t3: real,
                     t4: real, t5: real, t6: real, x: real, y: real)
    ensures (m1 * t1 + m2 * t2) * x + (m1 * t3 + m2 * t4) * y + (m1 * t5 + m2 * t6 + n)
         == m1 * (t1 * x + t3 * y + t5) + m2 * (t2 * x + t4 * y + t6) + n
  {
    Distribute(m1 * t1, m2 * t2, x);
    Distribute(m1 * t3, m2 * t4, y);
    Regroup(m1, t1, x);
    Regroup(m2, t2, x);
    Regroup(m1, t3, y);
    Regroup(m2, t4, y);
  }

  lemma Distribute(p: real, q: real, r: real)
    ensures (p + q) * r == p * r + q * r
  {
  }

  lemma Regroup(p: real, q: real, r: real)
    ensures (p * q) * r == p * (q * r)
  {
  }

  /** Post-multiplication M := M . T means that a point is mapped first by
      the newly added T and then by the previous M. */
  lemma ApplyMultiply(m: Matrix2D, t: Matrix2D, p: Point)
    ensures Apply(Multiply(m, t), p) == Apply(m, Apply(t, p))
  {
    var l, r := Apply(Multiply(m, t), p), Apply(m, Apply(t, p));
    assert l.x == r.x by {
      RowOfProduct(m.a, m.c, m.e, t.a, t.b, t.c, t.d, t.e, t.f, p.x, p.y);
    }
    assert l.y == r.y by {
      RowOfProduct(m.b, m.d, m.f, t.a, t.b, t.c, t.d, t.e, t.f, p.x, p.y);
    }
  }

  /** Composing a scaling onto m: a point is stretched first, then mapped
      by m. */
  lemma MultiplyByScaling(m: Matrix2D, x: real, y: real, p: Point)
    ensures Apply(Multiply(m, Scaling(x, y)), p) == Apply(m, Point(x * p.x, y * p.y))
  {
    var q := Apply(Scaling(x, y), p);
    assert q == Point(x * p.x, y * p.y);
    ApplyMultiply(m, Scaling(x, y), p);
  }

  /** Composing a translation onto m: a point is moved first, then mapped
      by m. */
  lemma MultiplyByTranslation(m: Matrix2D, x: real, y: real, p: Point)
    ensures Apply(Multiply(m, Translation(x, y)), p) == Apply(m, Point(p.x + x, p.y + y))
  {
    var q := Apply(Translation(x, y), p);
    assert q == Point(p.x + x, p.y + y);
    ApplyMultiply(m, Translation(x, y), p);
  }

  /** Composing a rotation onto m: a point is turned about the origin
      first, then mapped by m. */
  lemma MultiplyByRotation(m: Matrix2D, cos: real, sin: real, p: Point)
    ensures Apply(Multiply(m, Rotation(cos, sin)), p)
            == Apply(m, Point(cos * p.x - sin * p.y, sin * p.x + cos * p.y))
  {
    var q := Apply(Rotation(cos, sin), p);
    assert q == Point(cos * p.x - sin * p.y, sin * p.x + cos * p.y);
    ApplyMultiply(m, Rotation(cos, sin), p);
  }

  /** Transformations added one after another compose associatively. */
  lemma MultiplyAssociative(m: Matrix2D, t: Matrix2D, u: Matrix2D)
    ensures Multiply(Multiply(m, t), u) == Multiply(m, Multiply(t, u))
  {
    var mt := Multiply(m, t);
    // each column of a product is the image of the matching column of its
    // right factor (the linear columns without the translation)
    ApplyMultiply(m, t, Point(u.a, u.b));
    ApplyMultiply(m, t, Point(u.c, u.d));
    ApplyMultiply(m, t, Point(u.e, u.f));
    assert Multiply(mt, u).a == Apply(mt, Point(u.a, u.b)).x - mt.e;
    assert Multiply(mt, u).b == Apply(mt, Point(u.a, u.b)).y - mt.f;
    assert Multiply(mt, u).c == Apply(mt, Point(u.c, u.d)).x - mt.e;
    assert Multiply(mt, u).d == Apply(mt, Point(u.c, u.d)).y - mt.f;
  }

  /** A translation followed by a scaling: the scale factors on the
      diagonal, the translation unchanged. */
  lemma TranslationThenScaling(tx: real, ty: real, sx: real, sy: real)
    ensures Multiply(Translation(tx, ty), Scaling(sx, sy)) == Matrix2D(sx, 0.0, 0.0, sy, tx, ty)
  {
  }

  /** translate(10, 0) followed by scale(2, 2) from the identity gives
      (2, 0, 0, 2, 10, 0). */
  lemma TranslateThenScale()
    ensures Multiply(Multiply(Identity(), Translation(10.0, 0.0)), Scaling(2.0, 2.0))
            == Matrix2D(2.0, 0.0, 0.0, 2.0, 10.0, 0.0)
  {
    TranslationThenScaling(10.0, 0.0, 2.0, 2.0);
  }

  /** Two scalings compose into the scaling by the products of the factors,
      and two translations into the translation by the sum. */
  lemma ScalingsCompose(x0: real, y0: real, x1: real, y1: real)
    ensures Multiply(Scaling(x0, y0), Scaling(x1, y1)) == Scaling(x0 * x1, y0 * y1)
  {
  }

  lemma TranslationsCompose(x0: real, y0: real, x1: real, y1: real)
    ensures Multiply(Translation(x0, y0), Translation(x1, y1)) == Translation(x0 + x1, y0 + y1)
  {
  }

  function Determinant(m: Matrix2D): real
  {
    m.a * m.d - m.b * m.c
  }

  /** Adding a rotation by a genuine angle (cos^2 + sin^2 = 1) keeps the
      area scale (the determinant) of the current transform. */
  lemma RotationKeepsDeterminant(m: Matrix2D, cos: real, sin: real)
    requires cos * cos + sin * sin == 1.0
    ensures Determinant(Multiply(m, Rotation(cos, sin))) == Determinant(m)
  {
    var r := Multiply(m, Rotation(cos, sin));
    assert r.a == m.a * cos + m.c * sin;
    assert r.d == m.b * -sin + m.d * cos;
    assert r.b == m.b * cos + m.d * sin;
    assert r.c == m.a * -sin + m.c * cos;
    calc {
      Determinant(r);
      (m.a * cos + m.c * sin) * (m.b * -sin + m.d * cos)
        - (m.b * cos + m.d * sin) * (m.a * -sin + m.c * cos);
      (m.a * m.d - m.b * m.c) * (cos * cos + sin * sin);
      Determinant(m);
    }
  }
}
