/** The drawing state of a 2D context and the state machine its operations
    form (src/canvas.h:17-190, 211-223).

    `ContextState` is the abstract value of a context: the live drawing
    state and the stack of saved ones, the top of the stack being the last
    element. `Step` gives the effect of one operation on that value; the
    `Canvas.Context` class is proved to implement it, and the lemmas below
    state what the operations promise. */
module CanvasState {

  import opened Wrappers
  import opened CanvasMatrix
  import opened CanvasStyles

  /** CanvasCompositeOperation (src/canvas.h:84-150), in declaration order.
      The last three keep the header's DESTINATION_ prefix; they are the
      "lighter", "copy" and "xor" operators of the canvas standard. */
  datatype CompositeOperation =
    | SourceAtop | SourceIn | SourceOut | SourceOver
    | DestinationAtop | DestinationIn | DestinationOut | DestinationOver
    | DestinationLighter | DestinationCopy | DestinationXor

  function CompositeToInt(op: CompositeOperation): int
  {
    match op
    case SourceAtop => 0
    case SourceIn => 1
    case SourceOut => 2
    case SourceOver => 3
    case DestinationAtop => 4
    case DestinationIn => 5
    case DestinationOut => 6
    case DestinationOver => 7
    case DestinationLighter => 8
    case DestinationCopy => 9
    case DestinationXor => 10
  }

  /** Decodes a C enum `int`: None for a value that names no enumerator. */
  function CompositeFromInt(i: int): (r: Option<CompositeOperation>)
    ensures r.Some? <==> 0 <= i <= 10
    ensures r.Some? ==> CompositeToInt(r.value) == i
  {
    if i == 0 then Some(SourceAtop)
    else if i == 1 then Some(SourceIn)
    else if i == 2 then Some(SourceOut)
    else if i == 3 then Some(SourceOver)
    else if i == 4 then Some(DestinationAtop)
    else if i == 5 then Some(DestinationIn)
    else if i == 6 then Some(DestinationOut)
    else if i == 7 then Some(DestinationOver)
    else if i == 8 then Some(DestinationLighter)
    else if i == 9 then Some(DestinationCopy)
    else if i == 10 then Some(DestinationXor)
    else None
  }

  lemma CompositeRoundTrip(op: CompositeOperation)
    ensures CompositeFromInt(CompositeToInt(op)) == Some(op)
  {
  }

  /** CanvasImageSmoothingQuality (src/canvas.h:175-180). */
  datatype SmoothingQuality = Low | Medium | High

  function QualityToInt(q: SmoothingQuality): int
  {
    match q
    case Low => 0
    case Medium => 1
    case High => 2
  }

  function QualityFromInt(i: int): (r: Option<SmoothingQuality>)
    ensures r.Some? <==> 0 <= i <= 2
    ensures r.Some? ==> QualityToInt(r.value) == i
  {
    if i == 0 then Some(Low)
    else if i == 1 then Some(Medium)
    else if i == 2 then Some(High)
    else None
  }

  lemma QualityRoundTrip(q: SmoothingQuality)
    ensures QualityFromInt(QualityToInt(q)) == Some(q)
  {
  }

  /** One drawing state: everything save() copies and restore() brings
      back. Styles hold references, so a saved state shares its gradients
      and patterns with the live one. */
  datatype DrawingState = DrawingState(
    transform: Matrix2D,
    globalAlpha: real,
    compositeOperation: CompositeOperation,
    imageSmoothingEnabled: bool,
    imageSmoothingQuality: SmoothingQuality,
    fillStyle: Style,
    strokeStyle: Style)
  {
    /** globalAlpha stays in 0.0 .. 1.0 (src/canvas.h:77). */
    predicate Valid()
    {
      0.0 <= globalAlpha <= 1.0
    }
  }

  /** The state of a newly created context: identity transform, alpha 1,
      source-over, smoothing enabled at low quality, opaque black fill and
      stroke. */
  function DefaultDrawingState(): (r: DrawingState)
    ensures r.Valid() && r.globalAlpha == 1.0
    ensures forall p :: Apply(r.transform, p) == p
    ensures r.fillStyle == r.strokeStyle == ColorStyle(OpaqueBlack)
  {
    DrawingState(Identity(), 1.0, SourceOver, true, Low,
                 ColorStyle(OpaqueBlack), ColorStyle(OpaqueBlack))
  }

  /** The abstract value of a context: the live state and the saved states,
      oldest first. */
  datatype ContextState = ContextState(live: DrawingState, stack: seq<DrawingState>)
  {
    predicate Valid()
    {
      live.Valid() && forall i :: 0 <= i < |stack| ==> stack[i].Valid()
    }
  }

  function InitialState(): ContextState
  {
    ContextState(DefaultDrawingState(), [])
  }

  /** The operations of src/canvas.h that change a context. Every numeric
      argument is a C float that may be non-finite; every enum argument is
      the raw C `int`. Rotate carries cos(angle) and sin(angle) as the
      caller's maths library computes them. canvasSetTransform and
      canvasSetTransformM2 are both SetTransform. */
  datatype Op =
    | Save
    | Restore
    | Scale(x: Float, y: Float)
    | Rotate(angle: Float, cos: real, sin: real)
    | Translate(x: Float, y: Float)
    | Transform(m: MatrixInit)
    | SetTransform(m: MatrixInit)
    | ResetTransform
    | SetGlobalAlpha(alpha: Float)
    | SetGlobalCompositeOperation(operation: int)
    | SetImageSmoothingEnabled(enabled: int)
    | SetImageSmoothingQuality(quality: int)
    | SetFillStyle(style: Style)
    | SetStrokeStyle(style: Style)
  {
    /** scale, rotate, translate and transform: they compose a matrix onto
        the current one. */
    predicate AddsTransform()
    {
      Scale? || Rotate? || Translate? || Transform?
    }

    /** The operations that take numeric transform arguments. */
    predicate TakesTransformArguments()
    {
      AddsTransform() || SetTransform?
    }

    /** The finiteness check each transform operation makes on its numeric
        arguments; true for operations without such arguments. */
    predicate ArgumentsFinite()
    {
      match this
      case Scale(x, y) => x.Finite? && y.Finite?
      case Rotate(angle, _, _) => angle.Finite?
      case Translate(x, y) => x.Finite? && y.Finite?
      case Transform(m) => m.IsFinite()
      case SetTransform(m) => m.IsFinite()
      case _ => true
    }

    /** How many saved states the operation pushes (1), pops (-1) or
        leaves alone (0), when it succeeds. */
    function Depth(): int
    {
      if Save? then 1 else if Restore? then -1 else 0
    }
  }

  /** The matrix that scale, rotate, translate or transform composes onto
      the current one, or None when an argument is not finite. */
  function AddedTransform(op: Op): (r: Option<Matrix2D>)
    requires op.AddsTransform()
    ensures r.Some? <==> op.ArgumentsFinite()
  {
    match op
    case Scale(x, y) =>
      if x.Finite? && y.Finite? then Some(Scaling(x.value, y.value)) else None
    case Rotate(angle, cos, sin) =>
      if angle.Finite? then Some(Rotation(cos, sin)) else None
    case Translate(x, y) =>
      if x.Finite? && y.Finite? then Some(Translation(x.value, y.value)) else None
    case Transform(m) => ToMatrix(m)
  }

  function WithLive(s: ContextState, live: DrawingState): ContextState
  {
    s.(live := live)
  }

  /** The effect of one operation on a context. No operation takes
      globalAlpha out of 0.0 .. 1.0, in the live state or in a saved one,
      and only save() and a restore() with something saved change the
      stack. */
  function Step(s: ContextState, op: Op): (r: ContextState)
    ensures s.Valid() ==> r.Valid()
    ensures r.stack == s.stack || op.Save? || (op.Restore? && s.stack != [])
  {
    var d := s.live;
    match op
    case Save => s.(stack := s.stack + [d])
    case Restore =>
      if s.stack == [] then s
      else ContextState(s.stack[|s.stack| - 1], s.stack[..|s.stack| - 1])
    case Scale(_, _) => ComposeTransform(s, op)
    case Rotate(_, _, _) => ComposeTransform(s, op)
    case Translate(_, _) => ComposeTransform(s, op)
    case Transform(_) => ComposeTransform(s, op)
    case SetTransform(m) =>
      if m.IsFinite() then WithLive(s, d.(transform := ToMatrix(m).value)) else s
    case ResetTransform => WithLive(s, d.(transform := Identity()))
    case SetGlobalAlpha(v) =>
      if InUnitRange(v) then WithLive(s, d.(globalAlpha := v.value)) else s
    case SetGlobalCompositeOperation(i) =>
      if CompositeFromInt(i).Some?
      then WithLive(s, d.(compositeOperation := CompositeFromInt(i).value))
      else s
    case SetImageSmoothingEnabled(i) => WithLive(s, d.(imageSmoothingEnabled := i != 0))
    case SetImageSmoothingQuality(i) =>
      if QualityFromInt(i).Some?
      then WithLive(s, d.(imageSmoothingQuality := QualityFromInt(i).value))
      else s
    case SetFillStyle(style) => WithLive(s, d.(fillStyle := style))
    case SetStrokeStyle(style) => WithLive(s, d.(strokeStyle := style))
  }

  /** M := M . T for scale, rotate, translate and transform, or nothing
      when an argument is not finite. */
  function ComposeTransform(s: ContextState, op: Op): ContextState
    requires op.AddsTransform()
  {
    match AddedTransform(op)
    case Some(t) => WithLive(s, s.live.(transform := Multiply(s.live.transform, t)))
    case None => s
  }

  /** The effect of a sequence of operations, first to last. */
  function Run(s: ContextState, ops: seq<Op>): ContextState
    decreases |ops|
  {
    if ops == [] then s else Run(Step(s, ops[0]), ops[1..])
  }
}
