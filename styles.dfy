/** Fill and stroke styles (src/canvas.h:194-256).

    A style is one of three kinds behind one value type: a colour, a
    gradient or a pattern. Colours and images are opaque handles whose
    contents (parsing, decoding) live outside this core. Gradients and
    patterns are heap objects: a style holds a reference to one, so every
    holder sees the same stops and the same pattern matrix. */
module CanvasStyles {

  import opened Wrappers
  import opened CanvasMatrix

  /** A `CanvasColor *` (src/canvas.h:197). The context's own initial
      "#000000" is the one colour this core names; every other colour is a
      handle created by the external colour parser. */
  datatype Color = OpaqueBlack | ColorHandle(id: nat)

  /** A `CanvasImage *` (src/canvas.h:242), borrowed by a pattern. */
  datatype Image = ImageHandle(id: nat)

  /** A colour-stop offset: a position along the gradient, 0.0 .. 1.0. */
  type Offset = r: real | 0.0 <= r <= 1.0

  /** One (offset, colour) pair of a gradient; the offset was checked to lie
      in 0.0 .. 1.0 when the stop was added. */
  datatype ColorStop = ColorStop(offset: Offset, color: Color)

  /** The geometry a gradient is created with. It is stored as given (no
      finiteness or radius check) and never changed afterwards. */
  datatype GradientGeometry =
    | Linear(x0: Float, y0: Float, x1: Float, y1: Float)
    | Radial(x0: Float, y0: Float, r0: Float, x1: Float, y1: Float, r1: Float)

  /** A `CanvasGradient` (src/canvas.h:199, 225-240): fixed geometry and a
      growable list of colour stops in insertion order. */
  class Gradient {
    const geometry: GradientGeometry
    var stops: seq<ColorStop>

    /** CanvasCreateLinearGradient / CanvasCreateRadialGradient: a new
        gradient with the given geometry and no stops. */
    constructor (geometry: GradientGeometry)
      ensures this.geometry == geometry && stops == []
    {
      this.geometry := geometry;
      stops := [];
    }

    /** CanvasGradientAddColorStop (src/canvas.h:225-229): an offset outside
        0.0 .. 1.0, or a non-finite one, is rejected and the stops stay as
        they are; otherwise the stop is appended after all earlier ones.
        `added` reports which of the two happened. */
    method AddColorStop(offset: Float, color: Color) returns (added: bool)
      modifies this
      ensures added <==> InUnitRange(offset)
      ensures stops == if added then old(stops) + [ColorStop(offset.value, color)]
                       else old(stops)
    {
      added := InUnitRange(offset);
      if added {
        stops := stops + [ColorStop(offset.value, color)];
      }
    }
  }

  /** CanvasPatternRepetition (src/canvas.h:243-249). */
  datatype Repetition = Repeat | RepeatX | RepeatY | NoRepeat

  /** The C enumerator value of a repetition, in declaration order. */
  function RepetitionToInt(r: Repetition): int
  {
    match r
    case Repeat => 0
    case RepeatX => 1
    case RepeatY => 2
    case NoRepeat => 3
  }

  /** Decodes a C `int` as a repetition: None for a value that names no
      enumerator. */
  function RepetitionFromInt(i: int): (r: Option<Repetition>)
    ensures r.Some? <==> 0 <= i < 4
    ensures r.Some? ==> RepetitionToInt(r.value) == i
  {
    if i == 0 then Some(Repeat)
    else if i == 1 then Some(RepeatX)
    else if i == 2 then Some(RepeatY)
    else if i == 3 then Some(NoRepeat)
    else None
  }

  lemma RepetitionRoundTrip(r: Repetition)
    ensures RepetitionFromInt(RepetitionToInt(r)) == Some(r)
  {
  }

  /** A `CanvasPattern` (src/canvas.h:243-256): the image it borrows, its
      repetition, and its own transform, which starts as the identity. */
  class Pattern {
    const image: Image
    const repetition: Repetition
    var transform: Matrix2D

    constructor (image: Image, repetition: Repetition)
      ensures this.image == image && this.repetition == repetition
      ensures transform == Identity()
    {
      this.image := image;
      this.repetition := repetition;
      transform := Identity();
    }

    /** CanvasPatternSetTransform (src/canvas.h:255-256): replaces the
        pattern's matrix outright; a matrix with a non-finite component is
        ignored. Image and repetition are constants and cannot change. */
    method SetTransform(m: MatrixInit)
      modifies this
      ensures transform == if ToMatrix(m).Some? then ToMatrix(m).value else old(transform)
    {
      var v := ToMatrix(m);
      if v.Some? {
        transform := v.value;
      }
    }
  }

  /** `CanvasStyle` (src/canvas.h:201-209): exactly one of the three kinds.
      A gradient and a pattern share one C struct type, so the variant is
      the only thing that tells them apart. */
  datatype Style =
    | ColorStyle(color: Color)
    | GradientStyle(gradient: Gradient)
    | PatternStyle(pattern: Pattern)
}
