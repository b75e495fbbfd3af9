# Canvas 2D context state, in Dafny

This project models the state layer of a C port of the HTML Canvas 2D
rendering context, as declared in `src/canvas.h`. The header has no
function bodies. Its behaviour comes from its doc comments and from the
standard it cites: section 4.12.5.1 of the WHATWG HTML Living Standard,
"The 2D rendering context". The relevant subsections are "The canvas
state", "Transformations", "Fill and stroke styles", "Compositing" and
"Image smoothing".

What is modelled:

- `CanvasRenderingContext2D` is the class `Canvas.Context`. It has two
  fields: the live `DrawingState` and the stack of saved states. Each
  `void` function that takes the context is a method that updates the
  object in place.
- A drawing state holds the current transform, globalAlpha, the composite
  operation, imageSmoothingEnabled, imageSmoothingQuality, and the fill
  and stroke styles.
- The transform algebra uses exact reals. scale, rotate, translate and
  transform post-multiply the current matrix (M := M . T).
  setTransform and setTransformM2 replace it. resetTransform sets the
  identity, and getTransform returns a copy.
- Every C `float` argument is a `Float`: either a finite real or
  `NonFinite` (NaN or an infinity). A transform call with a non-finite
  argument does nothing.
- The setters for alpha, composite operation and smoothing quality ignore
  invalid values. C enums are plain `int`s, so the model decodes each
  enum from an `int`, and a value that names no enumerator is ignored.
- A style is a `Color`, `Gradient` or `Pattern` variant. Gradients and
  patterns are separate classes held by reference, so a saved state and
  the live state share them.
- A gradient's stop list grows in place; a stop's offset has the type
  `Offset` (a real in 0..1), so every gradient, including one read back
  from the context, accepts further stops. A pattern has a repetition and
  its own matrix.

The abstract value of a context is `CanvasState.ContextState`.
`CanvasState.Step` gives the effect of each operation, as an `Op` value,
on that value. Every method of `Context` that models a header function
changing the context ensures `Model() == Step(old(Model()), op)`. The lemmas in `CanvasStateProperties`
then state what the operations promise.

Points the header leaves open or gets wrong, and what the model does:

- The composite-operation enum has 11 enumerators (src/canvas.h:84-150).
  The last three keep the header's `DESTINATION_` prefix (lighter,
  copy and xor).
- The doc comments at src/canvas.h:152 and src/canvas.h:157 are swapped.
  The setter is the one that ignores unknown values.
- The header does not say what `CanvasPatternSetTransform` does with a
  non-finite matrix. The model applies the same rule as `setTransform`:
  the call is ignored.

Files: `wrappers.dfy` (Option), `matrix.dfy` (module `CanvasMatrix`),
`styles.dfy` (module `CanvasStyles`), `state.dfy` (module `CanvasState`),
`state_properties.dfy` (module `CanvasStateProperties`), `context.dfy`
(module `Canvas`). Three client methods in `context.dfy`
(`TransformStackScenario`, `SharedGradientScenario`,
`ValidationScenario`) are verified from the method contracts alone.

## Model

| member | source | states |
|---|---|---|
| CanvasMatrix.ToMatrix | src/canvas.h:64-67 | a `CanvasMatrix2D` argument is accepted exactly when all six components are finite, and then converts back to the same six components |
| CanvasMatrix.ToMatrixToInit | src/canvas.h:55-67 | a matrix returned by getTransform is always accepted when passed back and yields the same matrix |
| CanvasMatrix.Multiply | src/canvas.h:38-53 | composing onto a matrix leaves it unchanged when the added transform is the identity, and composing onto the identity gives the added transform |
| CanvasMatrix.Scaling | src/canvas.h:38-40 | the transform scale(x, y) adds maps every point (px, py) to (x px, y py) |
| CanvasMatrix.Translation | src/canvas.h:46-48 | the transform translate(x, y) adds moves every point by (x, y) |
| CanvasMatrix.Rotation | src/canvas.h:42-44 | the transform rotate adds turns every point about the origin to (cos px - sin py, sin px + cos py): the unit x vector goes to (cos, sin) and the unit y vector to (-sin, cos), clockwise on a y-down canvas |
| CanvasMatrix.MultiplyByScaling | src/canvas.h:38-40 | after composing a scaling onto m, a point is stretched first and then mapped by m |
| CanvasMatrix.MultiplyByTranslation | src/canvas.h:46-48 | after composing a translation onto m, a point is moved first and then mapped by m |
| CanvasMatrix.MultiplyByRotation | src/canvas.h:42-44 | after composing a rotation onto m, a point is turned about the origin first and then mapped by m |
| CanvasMatrix.ApplyMultiply | src/canvas.h:38-53 | after M := M . T, a point is mapped by T first and then by the previous M |
| CanvasMatrix.MultiplyAssociative | src/canvas.h:38-53 | transforms added one after another compose associatively |
| CanvasMatrix.TranslationThenScaling | src/canvas.h:38-48 | a translation followed by a scaling puts the scale factors on the diagonal and keeps the translation |
| CanvasMatrix.TranslateThenScale | src/canvas.h:38-48 | translate(10, 0) then scale(2, 2) from the identity gives (2, 0, 0, 2, 10, 0) |
| CanvasMatrix.ScalingsCompose | src/canvas.h:38-40 | two scalings compose into a scaling by the products of the factors |
| CanvasMatrix.TranslationsCompose | src/canvas.h:46-48 | two translations compose into a translation by the sums |
| CanvasMatrix.RotationKeepsDeterminant | src/canvas.h:42-44 | adding a rotation with cos^2 + sin^2 = 1 keeps the determinant of the current transform |
| CanvasStyles.Gradient.constructor | src/canvas.h:231-240 | a new gradient keeps its geometry as given and has no stops |
| CanvasStyles.Gradient.AddColorStop | src/canvas.h:225-229 | an offset in 0..1 appends exactly one stop after the earlier ones, in order; any other offset, including a non-finite one, leaves the stops unchanged |
| CanvasStyles.RepetitionFromInt | src/canvas.h:243-253 | an int names a repetition exactly when it is 0..3, and decodes to the enumerator with that value |
| CanvasStyles.RepetitionRoundTrip | src/canvas.h:243-249 | every repetition decodes back from its enum value |
| CanvasStyles.Pattern.constructor | src/canvas.h:251-253 | a new pattern keeps its image and repetition and starts with the identity transform |
| CanvasStyles.Pattern.SetTransform | src/canvas.h:255-256 | a finite matrix replaces the pattern's matrix outright; a non-finite one changes nothing |
| CanvasState.CompositeFromInt | src/canvas.h:84-157 | an int names a composite operation exactly when it is 0..10, and decodes to the enumerator with that value |
| CanvasState.CompositeRoundTrip | src/canvas.h:84-150 | every composite operation decodes back from its enum value |
| CanvasState.QualityFromInt | src/canvas.h:175-186 | an int names a smoothing quality exactly when it is 0..2, and decodes to that enumerator |
| CanvasState.QualityRoundTrip | src/canvas.h:175-180 | every smoothing quality decodes back from its enum value |
| CanvasState.AddedTransform | src/canvas.h:38-53 | scale, rotate, translate and transform add a matrix exactly when all their numeric arguments are finite |
| CanvasState.DefaultDrawingState | src/canvas.h:13 | the state of a new context satisfies the alpha invariant with alpha 1, its transform maps every point to itself, and fill and stroke are opaque black |
| CanvasState.Step | src/canvas.h:22-223 | no operation takes globalAlpha out of 0..1, in the live state or in any saved state, and only save and a restore with something saved change the stack |
| CanvasStateProperties.RunPreservesValid | src/canvas.h:77-79 | any sequence of operations keeps globalAlpha in 0..1 everywhere |
| CanvasStateProperties.InitialStateDefaults | src/canvas.h:13 | a new context has the identity transform, alpha 1, source-over (the default, src/canvas.h:105), smoothing enabled at low quality, opaque black fill and stroke styles, and an empty stack |
| CanvasStateProperties.RestoreOnEmptyStackIsNoop | src/canvas.h:25-26 | restore with nothing saved changes nothing |
| CanvasStateProperties.SaveThenRestore | src/canvas.h:22-26 | restore right after save gives back the same context |
| CanvasStateProperties.RunKeepsStackBase | src/canvas.h:22-26 | a sequence that never pops below depth n keeps the n oldest saved states and changes the depth by its pushes minus its pops |
| CanvasStateProperties.SaveRestoreRoundTrip | src/canvas.h:22-26 | save, then any balanced sequence of operations, then restore gives back every attribute and the stack as they were at the save |
| CanvasStateProperties.NonFiniteTransformArgumentIgnored | src/canvas.h:38-67 | scale, rotate, translate, transform or setTransform with a NaN or infinite argument changes nothing |
| CanvasStateProperties.TransformOperationsTouchOnlyMatrix | src/canvas.h:38-70 | the transform operations change the current matrix and neither the stack nor any other attribute |
| CanvasStateProperties.AddedTransformAppliesFirst | src/canvas.h:38-53 | after scale, rotate, translate or transform, points are mapped by the added transform first and then by the previous matrix |
| CanvasStateProperties.AddedTransformPostMultiplies | src/canvas.h:38-53 | with finite arguments, these operations right-multiply the current matrix and change nothing else |
| CanvasStateProperties.ScaleOnPoints | src/canvas.h:38-40 | after scale(x, y), a point (px, py) lands where the previous matrix put (x px, y py) |
| CanvasStateProperties.TranslateOnPoints | src/canvas.h:46-48 | after translate(x, y), a point lands where the previous matrix put it moved by (x, y) |
| CanvasStateProperties.RotateOnPoints | src/canvas.h:42-44 | after rotate, a point (px, py) lands where the previous matrix put (cos px - sin py, sin px + cos py), so the origin stays where it was and the unit axes turn to (cos, sin) and (-sin, cos) |
| CanvasStateProperties.SetTransformReplaces | src/canvas.h:59-67 | setTransform's result does not depend on the previous matrix, and getTransform reads back exactly the six components passed |
| CanvasStateProperties.SetTransformOfCurrentIsNoop | src/canvas.h:55-67 | passing back what getTransform returned changes nothing |
| CanvasStateProperties.ResetTransformIsIdentity | src/canvas.h:69-70 | after resetTransform every point maps to itself |
| CanvasStateProperties.TranslateSaveScaleRestore | src/canvas.h:22-48 | from the identity, translate(tx, ty); save; scale(sx, sy) gives (sx, 0, 0, sy, tx, ty), and restore then gives the pure translation back |
| CanvasStateProperties.ScaleThenInverseScale | src/canvas.h:38-40 | over exact reals, scale(x, y) then scale(1/x, 1/y) gives back the same context |
| CanvasStateProperties.SetGlobalAlphaReadBack | src/canvas.h:77-82 | a finite alpha in 0..1 is stored and read back; any other value leaves the context unchanged; nothing else changes |
| CanvasStateProperties.SetCompositeOperationReadBack | src/canvas.h:152-159 | a known enum value is stored and reads back as the same int; an unknown one leaves the context unchanged; nothing else changes |
| CanvasStateProperties.SetSmoothingQualityReadBack | src/canvas.h:182-190 | low, medium or high is stored and reads back as the same int; any other value leaves the context unchanged; nothing else changes |
| CanvasStateProperties.SetSmoothingEnabledReadBack | src/canvas.h:166-173 | the flag is always set: enabled exactly when the int is non-zero; nothing else changes |
| CanvasStateProperties.FillAndStrokeIndependent | src/canvas.h:211-223 | setting the fill style stores it and leaves the stroke style and all else alone, and the same holds the other way round |
| CanvasStateProperties.SettersIdempotent | src/canvas.h:59-223 | repeating any setter (setTransform, resetTransform, alpha, composite, smoothing, fill, stroke) has no further effect |
| Canvas.Context.constructor | src/canvas.h:13 | a new context holds the default drawing state and an empty stack |
| Canvas.Context.Save | src/canvas.h:22-23 | pushes a copy of the live state; the live state is unchanged |
| Canvas.Context.Restore | src/canvas.h:25-26 | pops the top saved state into the live state; does nothing when the stack is empty |
| Canvas.Context.Scale | src/canvas.h:38-40 | has the effect of the scale operation: post-multiplies by a scaling, or does nothing for a non-finite argument |
| Canvas.Context.Rotate | src/canvas.h:42-44 | has the effect of the rotate operation: post-multiplies by a clockwise rotation, or does nothing for a non-finite angle |
| Canvas.Context.Translate | src/canvas.h:46-48 | has the effect of the translate operation: post-multiplies by a translation, or does nothing for a non-finite argument |
| Canvas.Context.Transform | src/canvas.h:50-53 | has the effect of the transform operation: post-multiplies by the given matrix, or does nothing for a non-finite component |
| Canvas.Context.GetTransform | src/canvas.h:55-57 | returns the current matrix as a value |
| Canvas.Context.SetTransform | src/canvas.h:59-62 | has the effect of setTransform with the six components |
| Canvas.Context.SetTransformM2 | src/canvas.h:64-67 | has the effect of setTransform with a `CanvasMatrix2D` |
| Canvas.Context.ResetTransform | src/canvas.h:69-70 | sets the current matrix to the identity and changes nothing else |
| Canvas.Context.SetGlobalAlpha | src/canvas.h:77-79 | has the effect of setting globalAlpha: stores a value in 0..1, ignores any other |
| Canvas.Context.GetGlobalAlpha | src/canvas.h:81-82 | returns the stored alpha, which always lies in 0..1 |
| Canvas.Context.SetGlobalCompositeOperation | src/canvas.h:152-157 | has the effect of setting the composite operation: stores a known enum value, ignores an unknown one |
| Canvas.Context.GetGlobalCompositeOperation | src/canvas.h:158-159 | returns the int of the stored operation, which always decodes back to it |
| Canvas.Context.SetImageSmoothingEnabled | src/canvas.h:166-168 | has the effect of setting the smoothing flag from a C int |
| Canvas.Context.GetImageSmoothingEnabled | src/canvas.h:170-173 | returns a non-zero int exactly when smoothing is enabled |
| Canvas.Context.SetImageSmoothingQuality | src/canvas.h:182-186 | has the effect of setting the quality: stores low, medium or high, ignores any other value |
| Canvas.Context.GetImageSmoothingQuality | src/canvas.h:188-190 | returns the int of the stored quality, which always decodes back to it |
| Canvas.Context.SetFillStyle | src/canvas.h:211-213 | has the effect of setting the fill style |
| Canvas.Context.GetFillStyle | src/canvas.h:215-216 | returns the stored fill style, a shared reference for a gradient or pattern |
| Canvas.Context.SetStrokeStyle | src/canvas.h:218-220 | has the effect of setting the stroke style |
| Canvas.Context.GetStrokeStyle | src/canvas.h:222-223 | returns the stored stroke style |
| Canvas.Context.CreateLinearGradient | src/canvas.h:231-234 | returns a new gradient with the given line and no stops, and leaves the context alone |
| Canvas.Context.CreateRadialGradient | src/canvas.h:236-240 | returns a new gradient with the given circles and no stops, and leaves the context alone |
| Canvas.Context.CreatePattern | src/canvas.h:251-253 | returns null for a repetition int that names no enumerator; otherwise a new pattern with that image, that repetition and the identity transform |

## Left out

- canvasDestroyContext (src/canvas.h:15) and all memory management (allocation, freeing, and releasing styles that are no longer referenced): Dafny's heap has garbage collection, so creation is the constructor and nothing more.
- IEEE float arithmetic: matrices and alpha are exact reals, so rounding is not modelled. scale(x, y) then scale(1/x, 1/y) restores the matrix exactly here (ScaleThenInverseScale).
- Canvas.Context.Rotate: cos(angle) and sin(angle) come from the C maths library, so they are parameters and are not tied to the angle.
- Colour parsing and image decoding: `CanvasColor` and `CanvasImage` are opaque handles (ids). The context's initial opaque-black colour is the named constant `OpaqueBlack`.
- Gradient geometry is stored but not interpreted or validated, since the header states no check for it.
- The raw `CanvasStyle` struct: its `int type` tag values are not declared in the header, and a NULL payload pointer is not modelled. The style is a closed datatype, so a bad tag or a NULL pointer cannot arise.
- Canvas.Context.GetImageSmoothingEnabled: the int returned for "enabled" is only said to be non-zero, because the header does not say which value is used.
- Rasterization, compositing arithmetic, clipping, paths, and the line, shadow and text attributes: none of these is declared in this header.
- Canvas.Context.CreatePattern: the standard also returns null for an image that is not ready to draw. Image state is external, so only the repetition check is modelled.
- Concurrency: the context is single-threaded and every operation runs to completion.
