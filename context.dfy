/** `CanvasRenderingContext2D` (src/canvas.h:8-223): one object holding the
    live drawing state and the stack of saved states. Every `void` function
    of the header that takes the context is a method here that updates the
    object in place; each is proved to have exactly the effect that
    `CanvasState.Step` gives the matching operation, so the lemmas of
    `CanvasStateProperties` hold of the object. */
module Canvas {

  import opened Wrappers
  import opened CanvasMatrix
  import opened CanvasStyles
  import opened CanvasState
  import CanvasStateProperties

  class Context {
    /** The live drawing state. */
    var state: DrawingState
    /** The saved drawing states, oldest first; the last one is the top. */
    var stack: seq<DrawingState>

    /** The abstract value of the context. */
    function Model(): ContextState
      reads this
    {
      ContextState(state, stack)
    }

    ghost predicate Valid()
      reads this
    {
      Model().Valid()
    }

    /** canvasCreateContext (src/canvas.h:13): the default drawing state and
        an empty stack. */
    constructor ()
      ensures Valid()
      ensures Model() == InitialState()
    {
      state := DefaultDrawingState();
      stack := [];
    }

    // -------------------------------------------------------------------
    // Canvas state (src/canvas.h:19-26)

    /** canvasSave: pushes a copy of the live state. */
    method Save()
      requires Valid()
      modifies this
      ensures Valid()
      ensures state == old(state) && stack == old(stack) + [old(state)]
      ensures Model() == Step(old(Model()), Op.Save)
    {
      stack := stack + [state];
    }

    /** canvasRestore: pops the top saved state into the live state; with
        nothing saved it does nothing. */
    method Restore()
      requires Valid()
      modifies this
      ensures Valid()
      ensures old(stack) == [] ==> state == old(state) && stack == []
      ensures old(stack) != [] ==>
                state == old(stack)[|old(stack)| - 1] && stack == old(stack)[..|old(stack)| - 1]
      ensures Model() == Step(old(Model()), Op.Restore)
    {
      if stack != [] {
        state := stack[|stack| - 1];
        stack := stack[..|stack| - 1];
      }
      assert forall i :: 0 <= i < |stack| ==> stack[i] == old(stack)[i];
    }

    // -------------------------------------------------------------------
    // Transformations (src/canvas.h:30-70)

    /** Composes `t` onto the current matrix (M := M . t). */
    method PostMultiply(t: Matrix2D)
      requires Valid()
      modifies this
      ensures Valid()
      ensures state == old(state).(transform := Multiply(old(state).transform, t))
      ensures stack == old(stack)
    {
      state := state.(transform := Multiply(state.transform, t));
    }

    /** canvasScale. */
    method Scale(x: Float, y: Float)
      requires Valid()
      modifies this
      ensures Valid()
      ensures Model() == Step(old(Model()), Op.Scale(x, y))
    {
      if x.Finite? && y.Finite? {
        PostMultiply(Scaling(x.value, y.value));
      }
    }

    /** canvasRotate: `cos` and `sin` are the cosine and sine of `angle`,
        as the C maths library computes them. */
    method Rotate(angle: Float, cos: real, sin: real)
      requires Valid()
      modifies this
      ensures Valid()
      ensures Model() == Step(old(Model()), Op.Rotate(angle, cos, sin))
    {
      if angle.Finite? {
        PostMultiply(Rotation(cos, sin));
      }
    }

    /** canvasTranslate. */
    method Translate(x: Float, y: Float)
      requires Valid()
      modifies this
      ensures Valid()
      ensures Model() == Step(old(Model()), Op.Translate(x, y))
    {
      if x.Finite? && y.Finite? {
        PostMultiply(Translation(x.value, y.value));
      }
    }

    /** canvasTransform: composes the matrix [a c e; b d f; 0 0 1]. */
    method Transform(a: Float, b: Float, c: Float, d: Float, e: Float, f: Float)
      requires Valid()
      modifies this
      ensures Valid()
      ensures Model() == Step(old(Model()), Op.Transform(MatrixInit(a, b, c, d, e, f)))
    {
      var m := ToMatrix(MatrixInit(a, b, c, d, e, f));
      if m.Some? {
        PostMultiply(m.value);
      }
    }

    /** canvasGetTransform: a copy of the current matrix. */
    method GetTransform() returns (m: Matrix2D)
      ensures m == state.transform
    {
      m := state.transform;
    }

    /** canvasSetTransformM2: replaces the current matrix, unless a
        component is not finite. */
    method SetTransformM2(transform: MatrixInit)
      requires Valid()
      modifies this
      ensures Valid()
      ensures Model() == Step(old(Model()), Op.SetTransform(transform))
    {
      var m := ToMatrix(transform);
      if m.Some? {
        state := state.(transform := m.value);
      }
    }

    /** canvasSetTransform: the same with the six components passed one by
        one. */
    method SetTransform(a: Float, b: Float, c: Float, d: Float, e: Float, f: Float)
      requires Valid()
      modifies this
      ensures Valid()
      ensures Model() == Step(old(Model()), Op.SetTransform(MatrixInit(a, b, c, d, e, f)))
    {
      SetTransformM2(MatrixInit(a, b, c, d, e, f));
    }

    /** canvasResetTransform. */
    method ResetTransform()
      requires Valid()
      modifies this
      ensures Valid()
      ensures state == old(state).(transform := Identity()) && stack == old(stack)
      ensures Model() == Step(old(Model()), Op.ResetTransform)
    {
      state := state.(transform := Identity());
    }

    // -------------------------------------------------------------------
    // Compositing (src/canvas.h:74-159)

    /** canvasSetGlobalAlpha: a value outside 0.0 .. 1.0, or not finite,
        is ignored. */
    method SetGlobalAlpha(alpha: Float)
      requires Valid()
      modifies this
      ensures Valid()
      ensures Model() == Step(old(Model()), Op.SetGlobalAlpha(alpha))
    {
      if InUnitRange(alpha) {
        state := state.(globalAlpha := alpha.value);
      }
    }

    /** canvasGetGlobalAlpha. */
    method GetGlobalAlpha() returns (alpha: real)
      requires Valid()
      ensures alpha == state.globalAlpha
      ensures 0.0 <= alpha <= 1.0
    {
      alpha := state.globalAlpha;
    }

    /** canvasSetGlobalCompositeOperation: an int that names no enumerator
        is ignored. */
    method SetGlobalCompositeOperation(operation: int)
      requires Valid()
      modifies this
      ensures Valid()
      ensures Model() == Step(old(Model()), Op.SetGlobalCompositeOperation(operation))
    {
      var op := CompositeFromInt(operation);
      if op.Some? {
        state := state.(compositeOperation := op.value);
      }
    }

    /** canvasGetGlobalCompositeOperation, as the C enum value. */
    method GetGlobalCompositeOperation() returns (operation: int)
      ensures CompositeFromInt(operation) == Some(state.compositeOperation)
    {
      operation := CompositeToInt(state.compositeOperation);
      CompositeRoundTrip(state.compositeOperation);
    }

    // -------------------------------------------------------------------
    // Image smoothing (src/canvas.h:163-190)

    /** canvasSetImageSmoothingEnabled: any non-zero int enables. */
    method SetImageSmoothingEnabled(enabled: int)
      requires Valid()
      modifies this
      ensures Valid()
      ensures Model() == Step(old(Model()), Op.SetImageSmoothingEnabled(enabled))
    {
      state := state.(imageSmoothingEnabled := enabled != 0);
    }

    /** canvasGetImageSmoothingEnabled: 1 for enabled, 0 for disabled. */
    method GetImageSmoothingEnabled() returns (enabled: int)
      ensures enabled != 0 <==> state.imageSmoothingEnabled
    {
      enabled := if state.imageSmoothingEnabled then 1 else 0;
    }

    /** canvasSetImageSmoothingQuality: an int that names no enumerator is
        ignored. */
    method SetImageSmoothingQuality(quality: int)
      requires Valid()
      modifies this
      ensures Valid()
      ensures Model() == Step(old(Model()), Op.SetImageSmoothingQuality(quality))
    {
      var q := QualityFromInt(quality);
      if q.Some? {
        state := state.(imageSmoothingQuality := q.value);
      }
    }

    /** canvasGetImageSmoothingQuality, as the C enum value. */
    method GetImageSmoothingQuality() returns (quality: int)
      ensures QualityFromInt(quality) == Some(state.imageSmoothingQuality)
    {
      quality := QualityToInt(state.imageSmoothingQuality);
      QualityRoundTrip(state.imageSmoothingQuality);
    }

    // -------------------------------------------------------------------
    // Fill and stroke styles (src/canvas.h:194-256)

    /** canvasSetFillStyle: stores the style; a gradient or pattern is held
        by reference. */
    method SetFillStyle(style: Style)
      requires Valid()
      modifies this
      ensures Valid()
      ensures Model() == Step(old(Model()), Op.SetFillStyle(style))
    {
      state := state.(fillStyle := style);
    }

    /** canvasGetFillStyle. */
    method GetFillStyle() returns (style: Style)
      ensures style == state.fillStyle
    {
      style := state.fillStyle;
    }

    /** canvasSetStrokeStyle. */
    method SetStrokeStyle(style: Style)
      requires Valid()
      modifies this
      ensures Valid()
      ensures Model() == Step(old(Model()), Op.SetStrokeStyle(style))
    {
      state := state.(strokeStyle := style);
    }

    /** canvasGetStrokeStyle. */
    method GetStrokeStyle() returns (style: Style)
      ensures style == state.strokeStyle
    {
      style := state.strokeStyle;
    }

    /** CanvasCreateLinearGradient: a new gradient along the line from
        (x0, y0) to (x1, y1), with no stops. The context is not changed. */
    method CreateLinearGradient(x0: Float, y0: Float, x1: Float, y1: Float)
      returns (g: Gradient)
      ensures fresh(g)
      ensures g.geometry == Linear(x0, y0, x1, y1) && g.stops == []
    {
      g := new Gradient(Linear(x0, y0, x1, y1));
    }

    /** CanvasCreateRadialGradient: a new gradient between the circles
        (x0, y0, r0) and (x1, y1, r1), with no stops. */
    method CreateRadialGradient(x0: Float, y0: Float, r0: Float, x1: Float, y1: Float, r1: Float)
      returns (g: Gradient)
      ensures fresh(g)
      ensures g.geometry == Radial(x0, y0, r0, x1, y1, r1) && g.stops == []
    {
      g := new Gradient(Radial(x0, y0, r0, x1, y1, r1));
    }

    /** CanvasCreatePattern: a new pattern over `image` with the identity
        transform, or null when `repetition` names no enumerator. */
    method CreatePattern(image: Image, repetition: int) returns (p: Pattern?)
      ensures p == null <==> RepetitionFromInt(repetition).None?
      ensures p != null ==> fresh(p) && p.image == image && p.transform == Identity() &&
                            RepetitionFromInt(repetition) == Some(p.repetition)
    {
      var r := RepetitionFromInt(repetition);
      if r.Some? {
        p := new Pattern(image, r.value);
      } else {
        p := null;
      }
    }
  }

  /** translate(10, 0); save(); scale(2, 2) reads back (2, 0, 0, 2, 10, 0),
      and restore() then reads back (1, 0, 0, 1, 10, 0). */
  method TransformStackScenario()
  {
    var ctx := new Context();
    ctx.Translate(Finite(10.0), Finite(0.0));
    ctx.Save();
    ctx.Scale(Finite(2.0), Finite(2.0));
    CanvasStateProperties.TranslateSaveScaleRestore(InitialState(), 10.0, 0.0, 2.0, 2.0);
    var m := ctx.GetTransform();
    assert m == Matrix2D(2.0, 0.0, 0.0, 2.0, 10.0, 0.0);
    ctx.Restore();
    m := ctx.GetTransform();
    assert m == Matrix2D(1.0, 0.0, 0.0, 1.0, 10.0, 0.0);
  }

  /** A gradient held by both the live state and a saved state: a stop
      added through the gradient's own handle, or through the handle read
      back from the context, is seen through both. */
  method SharedGradientScenario()
  {
    var ctx := new Context();
    var g := ctx.CreateLinearGradient(Finite(0.0), Finite(0.0), Finite(100.0), Finite(0.0));
    ctx.SetFillStyle(GradientStyle(g));
    ctx.Save();
    var added := g.AddColorStop(Finite(0.5), ColorHandle(7));
    assert added;
    var live := ctx.GetFillStyle();
    assert live.gradient.stops == [ColorStop(0.5, ColorHandle(7))];
    assert ctx.stack[0].fillStyle.gradient.stops == [ColorStop(0.5, ColorHandle(7))];
    added := live.gradient.AddColorStop(Finite(1.2), ColorHandle(8));
    assert !added && g.stops == [ColorStop(0.5, ColorHandle(7))];
    added := live.gradient.AddColorStop(Finite(1.0), ColorHandle(9));
    assert added && g.stops == [ColorStop(0.5, ColorHandle(7)), ColorStop(1.0, ColorHandle(9))];
  }

  /** Out-of-range values are ignored and in-range ones are stored. */
  method ValidationScenario()
  {
    var ctx := new Context();
    ctx.SetGlobalAlpha(Finite(1.5));
    var alpha := ctx.GetGlobalAlpha();
    assert alpha == 1.0;
    ctx.SetGlobalAlpha(Finite(-0.1));
    ctx.SetGlobalAlpha(NonFinite);
    alpha := ctx.GetGlobalAlpha();
    assert alpha == 1.0;
    ctx.SetGlobalAlpha(Finite(0.42));
    alpha := ctx.GetGlobalAlpha();
    assert alpha == 0.42;
    ctx.SetGlobalCompositeOperation(11);
    var op := ctx.GetGlobalCompositeOperation();
    assert op == 3;
    ctx.SetImageSmoothingQuality(2);
    var q := ctx.GetImageSmoothingQuality();
    assert q == 2;
    var p := ctx.CreatePattern(ImageHandle(1), 999);
    assert p == null;
  }
}
