/** What the context's operations promise, stated over `CanvasState.Step`
    and `CanvasState.Run`. */
module CanvasStateProperties {

  import opened CanvasMatrix
  import opened CanvasStyles
  import opened CanvasState

  // ---------------------------------------------------------------------
  // The drawing-state invariant

  /** Any sequence of operations keeps globalAlpha in 0.0 .. 1.0, live and
      saved: `Step` keeps the invariant one operation at a time. */
  lemma {:induction false} RunPreservesValid(s: ContextState, ops: seq<Op>)
    requires s.Valid()
    ensures Run(s, ops).Valid()
    decreases |ops|
  {
    if ops != [] {
      RunPreservesValid(Step(s, ops[0]), ops[1..]);
    }
  }

  /** A new context satisfies the invariant and has the documented
      defaults. */
  lemma InitialStateDefaults()
    ensures InitialState().Valid() && InitialState().stack == []
    ensures InitialState().live.transform == Matrix2D(1.0, 0.0, 0.0, 1.0, 0.0, 0.0)
    ensures InitialState().live.globalAlpha == 1.0
    ensures InitialState().live.compositeOperation == SourceOver
    ensures InitialState().live.imageSmoothingEnabled
    ensures InitialState().live.imageSmoothingQuality == Low
    ensures InitialState().live.fillStyle == ColorStyle(OpaqueBlack)
    ensures InitialState().live.strokeStyle == ColorStyle(OpaqueBlack)
  {
  }

  // ---------------------------------------------------------------------
  // Save and restore

  /** restore() with nothing saved leaves the context exactly as it was. */
  lemma RestoreOnEmptyStackIsNoop(s: ContextState)
    requires s.stack == []
    ensures Step(s, Restore) == s
  {
  }

  /** restore() right after save() gives back the same context. */
  lemma SaveThenRestore(s: ContextState)
    ensures Step(Step(s, Save), Restore) == s
  {
    assert (s.stack + [s.live])[..|s.stack|] == s.stack;
  }

  lemma {:induction false} RunAppend(s: ContextState, a: seq<Op>, b: seq<Op>)
    ensures Run(s, a + b) == Run(Run(s, a), b)
    decreases |a|
  {
    if a != [] {
      assert (a + b)[0] == a[0] && (a + b)[1..] == a[1..] + b;
      RunAppend(Step(s, a[0]), a[1..], b);
    } else {
      assert a + b == b;
    }
  }

  /** The total push/pop count of a sequence of operations. */
  function NetDepth(ops: seq<Op>): int
    decreases |ops|
  {
    if ops == [] then 0 else ops[0].Depth() + NetDepth(ops[1..])
  }

  /** Starting with `slack` saved states that the sequence may pop, no
      prefix of `ops` pops more than it has pushed plus `slack`. */
  predicate NeverUnderflows(ops: seq<Op>, slack: int)
    decreases |ops|
  {
    slack >= 0 && (ops == [] || NeverUnderflows(ops[1..], slack + ops[0].Depth()))
  }

  /** Every restore in `ops` matches a save in `ops`, and every save is
      matched: the sequence ends at the depth it started from. */
  predicate Balanced(ops: seq<Op>)
  {
    NeverUnderflows(ops, 0) && NetDepth(ops) == 0
  }

  /** A sequence that never pops below depth n leaves the n oldest saved
      states untouched, and changes the depth by its net push/pop count. */
  lemma {:induction false} RunKeepsStackBase(s: ContextState, ops: seq<Op>, n: nat)
    requires n <= |s.stack|
    requires NeverUnderflows(ops, |s.stack| - n)
    ensures |Run(s, ops).stack| == |s.stack| + NetDepth(ops)
    ensures n <= |Run(s, ops).stack|
    ensures Run(s, ops).stack[..n] == s.stack[..n]
    decreases |ops|
  {
    if ops != [] {
      var s1 := Step(s, ops[0]);
      assert |s1.stack| == |s.stack| + ops[0].Depth();
      assert s1.stack[..n] == s.stack[..n];
      RunKeepsStackBase(s1, ops[1..], n);
    }
  }

  /** save(), then any balanced sequence of operations, then restore()
      returns every attribute of the drawing state to its value at the
      save, and the stack to what it was. */
  lemma SaveRestoreRoundTrip(s: ContextState, ops: seq<Op>)
    requires Balanced(ops)
    ensures Run(s, [Save] + ops + [Restore]) == s
  {
    var saved := Step(s, Save);
    assert Run(s, [Save]) == saved;
    RunAppend(s, [Save] + ops, [Restore]);
    RunAppend(s, [Save], ops);
    var t := Run(saved, ops);
    RunKeepsStackBase(saved, ops, |saved.stack|);
    assert t.stack == saved.stack;
    assert Run(t, [Restore]) == Step(t, Restore);
    assert saved.stack[..|s.stack|] == s.stack;
  }

  // ---------------------------------------------------------------------
  // Transformations

  /** A transform operation given a NaN or infinite argument changes
      nothing at all. */
  lemma NonFiniteTransformArgumentIgnored(s: ContextState, op: Op)
    requires op.TakesTransformArguments() && !op.ArgumentsFinite()
    ensures Step(s, op) == s
  {
  }

  /** The transform operations change the current matrix and nothing else. */
  lemma TransformOperationsTouchOnlyMatrix(s: ContextState, op: Op)
    requires op.TakesTransformArguments() || op.ResetTransform?
    ensures Step(s, op).stack == s.stack
    ensures Step(s, op).live == s.live.(transform := Step(s, op).live.transform)
  {
  }

  /** scale, rotate, translate and transform post-multiply: after the call
      a point is mapped by the added transform first and then by the
      previous matrix. */
  lemma AddedTransformAppliesFirst(s: ContextState, op: Op, p: Point)
    requires op.AddsTransform() && op.ArgumentsFinite()
    ensures AddedTransform(op).Some?
    ensures Apply(Step(s, op).live.transform, p)
            == Apply(s.live.transform, Apply(AddedTransform(op).value, p))
  {
    ApplyMultiply(s.live.transform, AddedTransform(op).value, p);
  }

  // Where a point lands after each operation that adds a transform, in
  // terms of the matrix before the call.

  /** scale(x, y) stretches a point to (x px, y py) before the old matrix
      applies. */
  lemma ScaleOnPoints(s: ContextState, x: real, y: real, p: Point)
    ensures Apply(Step(s, Scale(Finite(x), Finite(y))).live.transform, p)
            == Apply(s.live.transform, Point(x * p.x, y * p.y))
  {
    assert Step(s, Scale(Finite(x), Finite(y))).live.transform
           == Multiply(s.live.transform, Scaling(x, y));
    MultiplyByScaling(s.live.transform, x, y, p);
  }

  /** translate(x, y) moves a point by (x, y) before the old matrix
      applies. */
  lemma TranslateOnPoints(s: ContextState, x: real, y: real, p: Point)
    ensures Apply(Step(s, Translate(Finite(x), Finite(y))).live.transform, p)
            == Apply(s.live.transform, Point(p.x + x, p.y + y))
  {
    assert Step(s, Translate(Finite(x), Finite(y))).live.transform
           == Multiply(s.live.transform, Translation(x, y));
    MultiplyByTranslation(s.live.transform, x, y, p);
  }

  /** rotate(angle) turns a point about the origin, to
      (cos px - sin py, sin px + cos py), before the old matrix applies; the
      unit x vector goes to (cos, sin) and the unit y vector to (-sin, cos),
      clockwise on a canvas whose y axis points down. */
  lemma RotateOnPoints(s: ContextState, angle: real, cos: real, sin: real, p: Point)
    ensures Apply(Step(s, Rotate(Finite(angle), cos, sin)).live.transform, p)
            == Apply(s.live.transform, Point(cos * p.x - sin * p.y, sin * p.x + cos * p.y))
  {
    assert Step(s, Rotate(Finite(angle), cos, sin)).live.transform
           == Multiply(s.live.transform, Rotation(cos, sin));
    MultiplyByRotation(s.live.transform, cos, sin, p);
  }

  /** setTransform replaces the matrix outright: the result does not depend
      on the previous matrix, and getTransform reads back exactly the six
      components passed in. */
  lemma SetTransformReplaces(s: ContextState, t: ContextState, m: MatrixInit)
    requires m.IsFinite()
    ensures Step(s, SetTransform(m)).live.transform == Step(t, SetTransform(m)).live.transform
    ensures ToInit(Step(s, SetTransform(m)).live.transform) == m
  {
  }

  /** Passing back what getTransform returned is a no-op. */
  lemma SetTransformOfCurrentIsNoop(s: ContextState)
    ensures Step(s, SetTransform(ToInit(s.live.transform))) == s
  {
    ToMatrixToInit(s.live.transform);
  }

  /** resetTransform makes every point map to itself. */
  lemma ResetTransformIsIdentity(s: ContextState, p: Point)
    ensures Apply(Step(s, ResetTransform).live.transform, p) == p
  {
  }

  /** scale, rotate, translate and transform with finite arguments
      right-multiply the current matrix (M := M . T) and change nothing
      else. */
  lemma AddedTransformPostMultiplies(s: ContextState, op: Op)
    requires op.AddsTransform() && op.ArgumentsFinite()
    ensures AddedTransform(op).Some?
    ensures Step(s, op) == ContextState(
              s.live.(transform := Multiply(s.live.transform, AddedTransform(op).value)),
              s.stack)
  {
  }

  /** From the identity, translate(tx, ty); save(); scale(sx, sy) gives
      (sx, 0, 0, sy, tx, ty), and a following restore() gives back
      (1, 0, 0, 1, tx, ty): with tx = 10, ty = 0, sx = sy = 2 this is
      (2, 0, 0, 2, 10, 0) and then (1, 0, 0, 1, 10, 0). */
  lemma TranslateSaveScaleRestore(s: ContextState, tx: real, ty: real, sx: real, sy: real)
    requires s.live.transform == Identity()
    ensures var saved := Step(Step(s, Translate(Finite(tx), Finite(ty))), Save);
            var scaled := Step(saved, Scale(Finite(sx), Finite(sy)));
            scaled.live.transform == Matrix2D(sx, 0.0, 0.0, sy, tx, ty) &&
            Step(scaled, Restore).live.transform == Translation(tx, ty)
  {
    var s1 := Step(s, Translate(Finite(tx), Finite(ty)));
    AddedTransformPostMultiplies(s, Translate(Finite(tx), Finite(ty)));
    var s2 := Step(s1, Save);
    AddedTransformPostMultiplies(s2, Scale(Finite(sx), Finite(sy)));
  }

  /** With exact reals, scale(x, y) followed by scale(1/x, 1/y) gives back
      the context it started from. */
  lemma ScaleThenInverseScale(s: ContextState, x: real, y: real)
    requires x != 0.0 && y != 0.0
    ensures Step(Step(s, Scale(Finite(x), Finite(y))), Scale(Finite(1.0 / x), Finite(1.0 / y))) == s
  {
    var m := s.live.transform;
    var s1 := Step(s, Scale(Finite(x), Finite(y)));
    AddedTransformPostMultiplies(s, Scale(Finite(x), Finite(y)));
    AddedTransformPostMultiplies(s1, Scale(Finite(1.0 / x), Finite(1.0 / y)));
    MultiplyAssociative(m, Scaling(x, y), Scaling(1.0 / x, 1.0 / y));
    ScalingsCompose(x, y, 1.0 / x, 1.0 / y);
    assert Scaling(x * (1.0 / x), y * (1.0 / y)) == Identity();
  }

  // ---------------------------------------------------------------------
  // Compositing, smoothing and styles

  /** setGlobalAlpha stores a finite value in 0.0 .. 1.0 and ignores any
      other; nothing else changes. */
  lemma SetGlobalAlphaReadBack(s: ContextState, v: Float)
    ensures InUnitRange(v) ==> Step(s, SetGlobalAlpha(v)).live.globalAlpha == v.value
    ensures !InUnitRange(v) ==> Step(s, SetGlobalAlpha(v)) == s
    ensures Step(s, SetGlobalAlpha(v)).live.(globalAlpha := s.live.globalAlpha) == s.live
    ensures Step(s, SetGlobalAlpha(v)).stack == s.stack
  {
  }

  /** setGlobalCompositeOperation stores a known enumerator, ignores an
      unknown one, and reads back as the same integer. */
  lemma SetCompositeOperationReadBack(s: ContextState, i: int)
    ensures 0 <= i <= 10 ==>
      CompositeToInt(Step(s, SetGlobalCompositeOperation(i)).live.compositeOperation) == i
    ensures !(0 <= i <= 10) ==> Step(s, SetGlobalCompositeOperation(i)) == s
    ensures Step(s, SetGlobalCompositeOperation(i)).live.(compositeOperation := s.live.compositeOperation)
            == s.live
    ensures Step(s, SetGlobalCompositeOperation(i)).stack == s.stack
  {
  }

  /** setImageSmoothingQuality stores low, medium or high, ignores any
      other value, and reads back as the same integer. */
  lemma SetSmoothingQualityReadBack(s: ContextState, i: int)
    ensures 0 <= i <= 2 ==>
      QualityToInt(Step(s, SetImageSmoothingQuality(i)).live.imageSmoothingQuality) == i
    ensures !(0 <= i <= 2) ==> Step(s, SetImageSmoothingQuality(i)) == s
    ensures Step(s, SetImageSmoothingQuality(i)).live.(imageSmoothingQuality := s.live.imageSmoothingQuality)
            == s.live
    ensures Step(s, SetImageSmoothingQuality(i)).stack == s.stack
  {
  }

  /** setImageSmoothingEnabled always applies: any non-zero C int enables
      smoothing, zero disables it. */
  lemma SetSmoothingEnabledReadBack(s: ContextState, i: int)
    ensures Step(s, SetImageSmoothingEnabled(i)).live.imageSmoothingEnabled <==> i != 0
    ensures Step(s, SetImageSmoothingEnabled(i)).live.(imageSmoothingEnabled := s.live.imageSmoothingEnabled)
            == s.live
    ensures Step(s, SetImageSmoothingEnabled(i)).stack == s.stack
  {
  }

  /** setFillStyle stores the style as given and leaves the stroke style
      (and all else) alone; setStrokeStyle the same the other way round. */
  lemma FillAndStrokeIndependent(s: ContextState, style: Style)
    ensures Step(s, SetFillStyle(style)).live.fillStyle == style
    ensures Step(s, SetFillStyle(style)).live.strokeStyle == s.live.strokeStyle
    ensures Step(s, SetFillStyle(style)).live.(fillStyle := s.live.fillStyle) == s.live
    ensures Step(s, SetStrokeStyle(style)).live.strokeStyle == style
    ensures Step(s, SetStrokeStyle(style)).live.fillStyle == s.live.fillStyle
    ensures Step(s, SetStrokeStyle(style)).live.(strokeStyle := s.live.strokeStyle) == s.live
    ensures Step(s, SetFillStyle(style)).stack == s.stack == Step(s, SetStrokeStyle(style)).stack
  {
  }

  /** The operations that set an attribute to a given value: repeating one
      has no further effect. */
  predicate IsSetter(op: Op)
  {
    op.SetTransform? || op.ResetTransform? || op.SetGlobalAlpha? ||
    op.SetGlobalCompositeOperation? || op.SetImageSmoothingEnabled? ||
    op.SetImageSmoothingQuality? || op.SetFillStyle? || op.SetStrokeStyle?
  }

  lemma SettersIdempotent(s: ContextState, op: Op)
    requires IsSetter(op)
    ensures Step(Step(s, op), op) == Step(s, op)
  {
  }
}
