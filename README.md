# zoompinch transform engine in Dafny

This project models the transform and gesture core of zoompinch. A canvas is rendered inside a wrapper viewport. The engine keeps one live transform for the canvas: translate, uniform scale and rotation. Mouse drags, wheel steps, one- and two-finger touches and native rotate gestures update that transform in place.

Every update is built from one coordinate algebra between four spaces:

- client coordinates;
- wrapper-inner pixels;
- wrapper-relative fractions;
- canvas-relative fractions.

The model has six modules:

- `Wrappers`: the `Option` type.
- `Dom`: points, rectangles and the event payloads the handlers read.
- `Helpers`: the pure helpers of `core/src/helpers.ts`.
- `Mapper`: the pure coordinate maps of `core/src/zoompinch.ts`, written over a snapshot of the engine. A `Layout` holds the padding and the two measured boxes. A `Transform` holds the live transform.
- `Engine`:
  - the class `Zoompinch`, whose handlers assign its fields;
  - the pure rules those handlers apply: wheel delta rewriting, zoom and pinch scales, frozen touches and the pinch transform.
- `VueWheel`: the Vue wheel controller of `zoompinch-vue/src/controllers/wheel.ts`. It is a class over the scale and translate references. Its injected callbacks are function parameters.

Numbers are exact reals. The host's `Math.cos`, `Math.sin`, `Math.atan2`, `Math.sqrt` and `Math.PI` are a `Trig` record of function values. `Lawful` states the laws the proofs use:

- `cos 0 = 1` and `sin 0 = 0`;
- `cos(-a) = cos a` and `sin(-a) = -sin a`;
- `cos² + sin² = 1`;
- cos and sin of `atan2(y, x)`, scaled by `sqrt(x² + y²)`, give back a nonzero `(x, y)`;
- `π > 0`.

The engine's `update()` re-renders the canvas and notifies listeners. It is modelled as the ghost counter `updates`.

## Model

| member | source | states |
|---|---|---|
| Helpers.DegreeToRadians | core/src/helpers.ts:4-6 | 0 degrees is 0 radians and 180 degrees is π |
| Helpers.RadiansToDegrees | core/src/helpers.ts:1-3 | 0 radians is 0 degrees |
| Helpers.DegreesRoundTrip | core/src/helpers.ts:1-6 | degrees→radians→degrees and radians→degrees→radians are both the identity when π ≠ 0 |
| Helpers.Clamp | core/src/helpers.ts:8-10 | when min ≤ max the result lies in [min, max], in-range values are kept, values below give min and values above give max; when max < min the result is max |
| Helpers.AngleBetween | core/src/helpers.ts:12-14 | for distinct points, walking from p1 in the direction of the angle for the distance between the points reaches p2, under the polar law of `atan2`; `AngleBetweenTranslated` proves the angle is invariant under translation |
| Helpers.AngleBetweenTranslated | core/src/helpers.ts:12-14 | moving both points by the same vector keeps the angle between them |
| Helpers.RotatePoint | core/src/helpers.ts:16-24 | the centre is fixed, and angle 0 is the identity |
| Helpers.RotatePointByVector | core/src/helpers.ts:16-35 | rotating a point about a centre equals centre + rotateVector(point − centre) |
| Helpers.RotatePointKeepsDistance | core/src/helpers.ts:16-24 | rotation keeps the distance to the centre |
| Helpers.RotatePointInverse | core/src/helpers.ts:16-24 | rotating by −a about the same centre undoes a rotation by a |
| Helpers.AngleToVector | core/src/helpers.ts:26-28 | the vector has unit length, and angle 0 gives (1, 0) |
| Helpers.VectorBetween | core/src/helpers.ts:29-31 | the vector is zero exactly when the two points are equal |
| Helpers.VectorBetweenCarries | core/src/helpers.ts:29-43 | moving once along the vector from p1 to p2 leads from p1 to p2 |
| Helpers.RotateVector | core/src/helpers.ts:32-35 | the zero vector stays zero, and angle 0 is the identity |
| Helpers.RotateVectorAboutOrigin | core/src/helpers.ts:16-35 | rotating a vector is rotating the point it leads to about the origin |
| Helpers.RotateVectorKeepsLength | core/src/helpers.ts:32-35 | rotation keeps a vector's length |
| Helpers.MoveAlongVector | core/src/helpers.ts:39-43 | length 0 or a zero vector returns the start point |
| Helpers.MoveAlongVectorAdds | core/src/helpers.ts:39-43 | moving by a and then by b along v is moving by a + b |
| Helpers.Round | core/src/helpers.ts:45-48 | the result is within 0.5·10^−d of the value |
| Helpers.RoundKeepsExact | core/src/helpers.ts:45-48 | a value with at most d decimals (its 10^d multiple is whole) is its own rounding |
| Helpers.RoundToFourNear | core/src/helpers.ts:45-48 | rounding to four decimals moves a value by at most 0.00005 |
| Helpers.DetectTrackpad | core/src/helpers.ts:51-61 | a present, nonzero `wheelDeltaY` decides alone: trackpad iff it equals −3·deltaY; otherwise trackpad iff `deltaMode` is 0 |
| Helpers.IsMultipleOf | core/src/helpers.ts:62-69 | n / m for the first m that divides n, and 1 when none does |
| Helpers.MouseNotchMultiples | core/src/helpers.ts:62-69 | with [120, 100], ±120 gives ±1 and ±200 gives ±2 |
| Helpers.TransformRect | core/src/helpers.ts:71-90 | the forward transform of a natural rectangle keeps sizes nonnegative, and without rotation it scales and translates the corner |
| Helpers.GetUntransformedRect | core/src/helpers.ts:71-90 | width and height are round(size / scale, 4) |
| Helpers.InverseRotation | core/src/helpers.ts:77-81 | the corner's inverse rotation is RotatePoint about the origin by −rotate |
| Helpers.UntransformedUnrotated | core/src/helpers.ts:71-90 | without rotation the corner is round((left − tx) / scale, 4) and round((top − ty) / scale, 4) |
| Helpers.UntransformedIsRounded | core/src/helpers.ts:71-90 | inverting the forward transform of a natural rectangle gives that rectangle with every field rounded to four decimals |
| Helpers.UntransformedRectRecovers | core/src/helpers.ts:71-90 | inverting the idealised forward transform `TransformRect` of a rectangle recovers each field within 0.00005, for any rotation and positive scale |
| Mapper.NaturalScale | core/src/zoompinch.ts:99-105 | the natural scale of a measured layout is positive |
| Mapper.InnerAreaInWrapper | core/src/zoompinch.ts:79-91 | the inner origin sits `left`/`top` inside the wrapper box and the inner far edges sit `right`/`bottom` inside its far edges |
| Mapper.NaturalScaleFits | core/src/zoompinch.ts:85-105 | width fit when the canvas ratio ≥ the inner ratio, height fit otherwise; the scaled canvas fills that inner dimension exactly and does not exceed the other |
| Mapper.NaturalScaleExample | core/src/zoompinch.ts:99-105 | an 800×600 inner area and a 400×300 canvas have equal ratios and natural scale 2 (width fit) |
| Mapper.RenderingScale | core/src/zoompinch.ts:439-441 | the rendering scale is positive for a positive scale, and zero exactly when the scale is zero |
| Mapper.Extent | core/src/zoompinch.ts:363-367 | the origin and a zero scale both give a zero extent |
| Mapper.ComposeRelPoint | core/src/zoompinch.ts:348-374 | the canvas origin composes to the padded origin plus the translate, whatever the scale and rotation; `CanvasCoordsOfComposed` and `ComposedOfCanvasCoords` relate it to its inverse |
| Mapper.ComposeRelPointForm | core/src/zoompinch.ts:348-374 | composing is the padded origin plus the rotated extent plus the translate |
| Mapper.ComposePoint | core/src/zoompinch.ts:376-380 | canvas pixel (0, 0) composes to the padded origin plus the translate; `NormalizedClientComposes` relates it to `normalizeClientCoords` |
| Mapper.CalcProjectionTranslate | core/src/zoompinch.ts:315-338 | for the canvas origin or a zero scale the translate is the wrapper target in pixels; `ProjectionAnchors` states that the solved translate puts any canvas point on its target |
| Mapper.ProjectionAnchors | core/src/zoompinch.ts:315-338 | with the solved translate, the new scale and the rotation used, the canvas point composes to offset + wrapperPosition·innerSize |
| Mapper.CenteringExample | core/src/zoompinch.ts:315-338 | for an 800×600 inner area and a 400×300 canvas at scale 1, centring the middle gives translate (0, 0) |
| Mapper.GetCanvasCoordsRel | core/src/zoompinch.ts:395-410 | the translate point maps to the canvas origin; `CanvasCoordsOfComposed` and `ComposedOfCanvasCoords` prove it inverts `composeRelPoint` both ways |
| Mapper.CanvasCoordsOfComposed | core/src/zoompinch.ts:395-410 | getCanvasCoordsRel(composeRelPoint(q) − offset) = q for a nonzero scale |
| Mapper.ComposedOfCanvasCoords | core/src/zoompinch.ts:348-374 | composeRelPoint(getCanvasCoordsRel(p)) = p + offset for a nonzero scale |
| Mapper.ClientCoordsToWrapperCoords | core/src/zoompinch.ts:411-414 | the result plus the wrapper's inner origin is the client point |
| Mapper.RelativeWrapperCoordinatesFromClientCoords | core/src/zoompinch.ts:415-419 | the result times the inner size is the client point minus the inner origin |
| Mapper.NormalizeMatrixCoordinates | core/src/zoompinch.ts:420-424 | the client point at the inner origin plus the translate maps to the canvas origin; `NormalizedPointUnderClient` is its round trip |
| Mapper.NormalizedPointUnderClient | core/src/zoompinch.ts:420-424 | the canvas point found under a client position composes back to that position, relative to the wrapper box |
| Mapper.NormalizeClientCoords | core/src/zoompinch.ts:425-429 | the client point at the inner origin plus the translate maps to canvas pixel (0, 0); `NormalizedClientComposes` is its round trip |
| Mapper.NormalizedClientComposes | core/src/zoompinch.ts:425-429 | composePoint of normalizeClientCoords(client) is the client position relative to the wrapper box |
| Engine.NormalizeMouseDelta | core/src/zoompinch.ts:155-162 | a non-trackpad delta of ±120 becomes ±2.4 and ±200 becomes ±2; other deltas pass through; the sign is always kept |
| Engine.WheelDeltas | core/src/zoompinch.ts:152-162 | trackpad deltas pass through unchanged, the others are each rewritten by the notch rule, and every delta keeps its sign |
| Engine.ZoomScale | core/src/zoompinch.ts:163-166 | clamp(s + (−deltaY/100)·s, min, max) lies in [min, max] when min ≤ max; deltaY = 0 keeps an in-range scale; negative deltaY never shrinks and positive deltaY never grows a positive in-range scale |
| Engine.FreezeTouches | core/src/zoompinch.ts:189-197 | one frozen entry per touch, each keeping its client point |
| Engine.FrozenTouchesUnderFingers | core/src/zoompinch.ts:189-197 | each frozen canvas point composes back to its finger's position in the wrapper box |
| Engine.WrapperPositions | core/src/zoompinch.ts:207-210 | one position per touch, each the touch's client point minus the inner origin |
| Engine.PinchScale | core/src/zoompinch.ts:242 | the pinch scale lies in [min, max] when min ≤ max, and is the distance ratio when that is in range |
| Engine.PinchScaleDelta | core/src/zoompinch.ts:243-250 | the scale projection for the first finger is the finger's inner position minus the anchor's extent at the new scale |
| Engine.PinchAround | core/src/zoompinch.ts:244-291 | the step commits the new scale and the angle change as rotate, and with no angle change the translate is the scale projection alone; `PinchPinsAnchor` proves the anchor stays under the finger |
| Engine.PinchTransform | core/src/zoompinch.ts:219-291 | the committed scale lies in [min, max]; rotate is the fingers' angle now minus their angle at the start, not added to the prior rotate |
| Engine.PinchPinsAnchor | core/src/zoompinch.ts:244-291 | after the scale projection and the rotation about the anchor, the anchor's canvas point composes to the finger's inner position |
| Engine.PinchPinsFirstFinger | core/src/zoompinch.ts:219-291 | after a pinch step, the first finger's frozen canvas point composes to the first finger's inner position |
| Engine.PinchUnderFirstTouch | core/src/zoompinch.ts:205-291 | the same in client terms: the point ends under the first touch, relative to the wrapper box |
| Engine.ZoomKeepsCursorPoint | core/src/zoompinch.ts:163-178 | with the translate solved for the cursor, the canvas point under the cursor stays under it at any new scale |
| Engine.RotationKeepsPoint | core/src/zoompinch.ts:430-437 | the translate that reconciles current and virtual positions keeps the point's composed position |
| Engine.RotateOpposite | core/src/helpers.ts:16-24 | a vector and its opposite rotate to opposite vectors |
| Engine.Zoompinch.constructor | core/src/zoompinch.ts:33-44 | sets the given transform, offset and limits, which default to 0.1 and 10; no box is measured and no session is active |
| Engine.Zoompinch.Initialize | core/src/zoompinch.ts:62-67 | the first frame stores both measured boxes as they are and re-renders |
| Engine.Zoompinch.ObserveWrapperResize | core/src/zoompinch.ts:45-49 | a wrapper resize replaces the wrapper box and leaves the transform alone |
| Engine.Zoompinch.ObserveCanvasResize | core/src/zoompinch.ts:50-60 | the canvas box becomes the untransformed measured box under the rendering transform; when the measured box is `TransformRect` of a natural box, the stored box is within 0.00005 of it |
| Engine.Zoompinch.HandleGesturestart | core/src/zoompinch.ts:106-109 | captures the live rotation |
| Engine.Zoompinch.HandleGesturechange | core/src/zoompinch.ts:110-119 | rotation 0 changes nothing; otherwise rotate = captured rotation + radians(rotation), and the point under the event stays under it |
| Engine.Zoompinch.HandleMousedown | core/src/zoompinch.ts:126-131 | starts a drag at the pointer with the translate frozen |
| Engine.Zoompinch.HandleMouseup | core/src/zoompinch.ts:132-137 | clears all three drag fields |
| Engine.Zoompinch.HandleMousemove | core/src/zoompinch.ts:138-150 | no drag session: nothing changes; with one: translate − frozen translate = pointer − drag start, and scale and rotate are untouched |
| Engine.Zoompinch.HandleWheel | core/src/zoompinch.ts:151-185 | without ctrlKey the translate drops by the rewritten deltas and the scale is kept; with ctrlKey the scale is the clamped zoom step, the translate is the projection solved for the cursor, and the point under the cursor stays under it; rotate is untouched |
| Engine.Zoompinch.HandleTouchstart | core/src/zoompinch.ts:198-204 | freezes every touch and the live translate |
| Engine.Zoompinch.HandleTouchmove | core/src/zoompinch.ts:205-305 | no session: nothing changes; one finger: translate = frozen translate + finger travel; two: the pinch transform is committed with scale in [min, max] |
| Engine.Zoompinch.Pinch | core/src/zoompinch.ts:219-291 | the pinch step commits the pinch transform, with scale in [min, max], and leaves the first finger's frozen canvas point under the first touch |
| Engine.Zoompinch.HandleTouchend | core/src/zoompinch.ts:306-314 | no finger left: the session ends; otherwise it is re-frozen from the remaining fingers and the live translate |
| Engine.AppliedAnchor | core/src/zoompinch.ts:339-347 | the translate solved at rotation 0, with the new scale and a live rotation of 0, puts the anchor at offset + wrapper point·innerSize |
| Engine.Zoompinch.ApplyTransform | core/src/zoompinch.ts:339-347 | scale is set unclamped; translate is solved at rotation 0; rotate is kept; with rotate 0 the anchor composes to offset + wrapper point·innerSize |
| Engine.Zoompinch.RotateCanvas | core/src/zoompinch.ts:430-437 | rotate is set, scale kept, and the given canvas point composes to the same position before and after |
| VueWheel.WheelController.constructor | zoompinch-vue/src/controllers/wheel.ts:4-24 | holds the given scale, translate and limits |
| VueWheel.WheelController.HandleWheel | zoompinch-vue/src/controllers/wheel.ts:25-46 | raw deltas; without ctrlKey translate −= (deltaX, deltaY) and the scale is kept; with ctrlKey the scale is the clamped zoom step in [min, max], and the translate is the injected projection, with both lookups taken before the scale is written |
| VueWheel.NotchPansDiffer | zoompinch-vue/src/controllers/wheel.ts:26 | a 120 line-mode notch pans the Vue controller by 120 but the core engine by 2.4; trackpad deltas are the same in both |

## Left out

- Browser plumbing is not modelled. This covers `ResizeObserver`, `requestAnimationFrame`, `getBoundingClientRect`, the `.canvas` element query, `console.log`, `preventDefault`/`stopPropagation`, the CSS transform string and `dispatchEvent` (including the `init` event). The observers and the first frame become the methods `Initialize`, `ObserveWrapperResize` and `ObserveCanvasResize`, which take the measured box as a parameter. `update()` becomes the ghost counter `updates`.
- IEEE-754 behaviour is not modelled: rounding error, NaN, Infinity and signed zero. Numbers are exact reals.
- Reads of unmeasured bounds and divisions by zero are excluded by preconditions instead. The source turns these into a TypeError or into NaN/Infinity. The preconditions require both boxes measured with a positive inner and canvas size (`Ready`/`Measured`) and a nonzero scale wherever the rendering scale divides. One consequence read from the source, not executed: if the first canvas measurement (core/src/zoompinch.ts:62-66) is 0×0, `canvasNaturalRatio` is 0/0 = NaN, so `naturalScale` takes the height branch and is `innerHeight / 0` = Infinity (zoompinch.ts:95-104). The canvas observer (zoompinch.ts:50-59) then divides every field by an infinite `renderinScale`, which stores {0, 0, 0, 0} again, so the engine never leaves the 0×0 state. `Engine.Zoompinch.ObserveCanvasResize`'s `requires Ready()` excludes exactly this state.
- Engine.PinchScale: a zero start distance between the two fingers commits `maxScale`. The source divides by zero, which gives `maxScale` for a positive current distance but NaN when the current distance is also zero.
- Trigonometry and square root are parameters, constrained only by the laws in `Lawful`. These are: π > 0, cos 0 = 1, sin 0 = 0, the parity of cos and sin, cos² + sin² = 1, and the polar law that cos and sin of `atan2(y, x)`, scaled by `sqrt(x² + y²)`, give back a nonzero `(x, y)`.
- The pinch's scale and angle formulas are not related to finger geometry. Beyond the polar law, nothing is assumed about `atan2` or `sqrt` (not even `sqrt(x²) = |x|`), so there is no proof that a pinch begun without movement keeps the current scale or rotation.
- The pinch inlines its own `atan2` calls. It does not call `getAngleBetweenTwoPoints`, which `Helpers.AngleBetween` models; `Engine.PinchTransform` is stated with it.
- `getAnchorOffset` is private and unused.
- Helpers.UntransformedRectRecovers, Helpers.UntransformedIsRounded, Engine.Zoompinch.ObserveCanvasResize: `TransformRect` is an idealised forward transform. It rotates only the top-left corner and keeps the scaled width and height. A browser reports the axis-aligned hull of a rotated element, whose width is scale·(w·|cos r| + h·|sin r|). So "for any rotation" holds of that idealisation only. For a rotated canvas the source stores a box larger than the natural one, and `naturalScale` then reads that larger size.
- Engine.Zoompinch.HandleTouchmove: its preconditions exclude a move event with no touches while a session is active, and any move that takes the single-finger branch (any move that is not a pinch, whatever its number of touches) in a session that froze no fingers. The source throws a TypeError on these when it reads `event.touches[0]` or `this.touchStarts[0]`. Browsers always send at least one touch with `touchstart` and `touchmove`, but the model can reach a session with no frozen fingers through `HandleTouchstart` with no touches, as the source can.
- `handleGestureend` and `destroy` have empty bodies.
- `round` takes its decimals as a natural number. The source only calls it with 4.
- The source passes the canvas rectangle's own `DOMRect` at the first frame. The model takes it as a `Bounds` whose `left`/`top` are the smaller edges.
- The React and custom-element adapters are not part of this model, nor the demo playground and the build configuration.
