/**
  * The transform engine (`Zoompinch`): one live transform (translate, scale,
  * rotate) updated in place by the mouse, wheel, touch and gesture handlers,
  * plus the pure rules those handlers apply (wheel delta rewriting, zoom and
  * pinch scales, frozen touches, the pinch transform).
  */
module Engine {
  import opened Wrappers
  import opened Dom
  import opened Helpers
  import opened Mapper

  /** The constructor's default scale limits, used when a caller gives none. */
  const DefaultMinScale: real := 0.1
  const DefaultMaxScale: real := 10.0

  /** The notch sizes a mouse wheel reports, tried in this order. */
  const MouseMultiples: seq<real> := [120.0, 100.0]

  /** The divisor factor for mouse notches; the source picks 2 with and without `ctrlKey`. */
  const MouseFactor: real := 2.0

  // ---------------------------------------------------------------------------
  // Wheel rules
  // ---------------------------------------------------------------------------

  /**
    * One delta of a wheel event that is not from a trackpad: a notch of
    * exactly 120 or 200 is divided down to a small step with its sign kept;
    * every other delta is left alone.
    */
  function NormalizeMouseDelta(delta: real): (r: real)
    ensures delta == 120.0 ==> r == 2.4
    ensures delta == -120.0 ==> r == -2.4
    ensures delta == 200.0 ==> r == 2.0
    ensures delta == -200.0 ==> r == -2.0
    ensures Abs(delta) != 120.0 && Abs(delta) != 200.0 ==> r == delta
    ensures Sign(r) == Sign(delta)
  {
    if Abs(delta) == 120.0 || Abs(delta) == 200.0 then
      NotchSteps(delta);
      delta / ((100.0 / MouseFactor) * IsMultipleOf(delta, MouseMultiples)) * Sign(delta)
    else
      delta
  }

  /** The four notch deltas and the steps they are divided down to. */
  lemma NotchSteps(delta: real)
    requires Abs(delta) == 120.0 || Abs(delta) == 200.0
    ensures var m := IsMultipleOf(delta, MouseMultiples);
            && m != 0.0
            && var r := delta / ((100.0 / MouseFactor) * m) * Sign(delta);
            && (delta == 120.0 ==> r == 2.4)
            && (delta == -120.0 ==> r == -2.4)
            && (delta == 200.0 ==> r == 2.0)
            && (delta == -200.0 ==> r == -2.0)
  {
    MouseNotchMultiples();
    assert MouseMultiples == [120.0, 100.0];
    if delta == 120.0 {
      assert IsMultipleOf(delta, MouseMultiples) == 1.0;
    } else if delta == -120.0 {
      assert IsMultipleOf(delta, MouseMultiples) == -1.0;
    } else if delta == 200.0 {
      assert IsMultipleOf(delta, MouseMultiples) == 2.0;
    } else {
      assert IsMultipleOf(delta, MouseMultiples) == -2.0;
    }
  }

  /**
    * The deltas `handleWheel` goes on with: rewritten unless the event looks
    * like a trackpad's. Every delta keeps its sign, and trackpad deltas pass
    * through unchanged.
    */
  function WheelDeltas(event: WheelEvent): (d: Point)
    ensures Sign(d.x) == Sign(event.deltaX) && Sign(d.y) == Sign(event.deltaY)
    ensures DetectTrackpad(event) ==> d == Point(event.deltaX, event.deltaY)
    ensures !DetectTrackpad(event) ==> d == Point(NormalizeMouseDelta(event.deltaX), NormalizeMouseDelta(event.deltaY))
  {
    if !DetectTrackpad(event) then
      Point(NormalizeMouseDelta(event.deltaX), NormalizeMouseDelta(event.deltaY))
    else
      Point(event.deltaX, event.deltaY)
  }

  /**
    * The scale a zoom wheel step commits: the current scale grows by
    * `-deltaY` percent and is clamped into the limits.
    */
  function ZoomScale(scale: real, deltaY: real, minScale: real, maxScale: real): (r: real)
    ensures minScale <= maxScale ==> minScale <= r <= maxScale
    ensures deltaY == 0.0 && minScale <= scale <= maxScale ==> r == scale
    ensures scale > 0.0 && deltaY < 0.0 && minScale <= scale <= maxScale ==> r >= scale
    ensures scale > 0.0 && deltaY > 0.0 && minScale <= scale <= maxScale ==> r <= scale
  {
    var scaleDelta := (-deltaY / 100.0) * scale;
    assert deltaY < 0.0 && scale > 0.0 ==> scaleDelta > 0.0 by {
      if deltaY < 0.0 && scale > 0.0 { PositiveProduct(-deltaY / 100.0, scale); }
    }
    assert deltaY > 0.0 && scale > 0.0 ==> scaleDelta < 0.0 by {
      if deltaY > 0.0 && scale > 0.0 { PositiveProduct(deltaY / 100.0, scale); }
    }
    Clamp(scale + scaleDelta, minScale, maxScale)
  }

  lemma PositiveProduct(a: real, b: real)
    requires a > 0.0 && b > 0.0
    ensures a * b > 0.0 && (-a) * b < 0.0
  {
  }

  // ---------------------------------------------------------------------------
  // Touches
  // ---------------------------------------------------------------------------

  /** A finger frozen at the start of a touch session: its client point and the canvas-relative point under it. */
  datatype TouchStart = TouchStart(client: Point, canvasRel: Point)

  /** `freezeTouches`: each touch with the canvas point found under it under the live transform. */
  function FreezeTouches(L: Layout, T: Transform, t: Trig, touches: seq<Point>): (frozen: seq<TouchStart>)
    requires Measured(L) && T.scale != 0.0
    ensures |frozen| == |touches|
    ensures forall i :: 0 <= i < |touches| ==> frozen[i].client == touches[i]
  {
    seq(|touches|, i requires 0 <= i < |touches| =>
      var wrapperCoords := ClientCoordsToWrapperCoords(L.offset, L.wrapper, touches[i]);
      TouchStart(touches[i], GetCanvasCoordsRel(L, T, t, wrapperCoords)))
  }

  /** Every frozen canvas point lies under its finger: it composes back to the finger's position in the wrapper's box. */
  lemma FrozenTouchesUnderFingers(L: Layout, T: Transform, t: Trig, touches: seq<Point>)
    requires Lawful(t) && Measured(L) && T.scale != 0.0
    ensures var frozen := FreezeTouches(L, T, t, touches);
            forall i :: 0 <= i < |touches| ==>
              ComposeRelPoint(L, T, t, frozen[i].canvasRel) == Point(touches[i].x - L.wrapper.x, touches[i].y - L.wrapper.y)
  {
    var frozen := FreezeTouches(L, T, t, touches);
    forall i | 0 <= i < |touches|
      ensures ComposeRelPoint(L, T, t, frozen[i].canvasRel) == Point(touches[i].x - L.wrapper.x, touches[i].y - L.wrapper.y)
    {
      assert frozen[i].canvasRel == NormalizeMatrixCoordinates(L, T, t, touches[i]);
      NormalizedPointUnderClient(L, T, t, touches[i]);
    }
  }

  /** The touch positions of a move event, relative to the wrapper's inner origin. */
  function WrapperPositions(offset: Offset, wrapper: Bounds, touches: seq<Point>): (positions: seq<Point>)
    ensures |positions| == |touches|
    ensures forall i :: 0 <= i < |touches| ==>
              positions[i].x + WrapperInnerX(offset, wrapper) == touches[i].x
              && positions[i].y + WrapperInnerY(offset, wrapper) == touches[i].y
  {
    seq(|touches|, i requires 0 <= i < |touches| => ClientCoordsToWrapperCoords(offset, wrapper, touches[i]))
  }

  /** The Euclidean distance, through the supplied square root. */
  function Distance(t: Trig, p: Point, q: Point): real {
    t.sqrt(SquaredDistance(p, q))
  }

  /**
    * The pinch scale: the finger distance now over the distance at the start,
    * clamped. A zero start distance divides by zero in the source; here it
    * commits `maxScale`, where a positive distance over zero lands.
    */
  function PinchScale(nowDistance: real, startDistance: real, minScale: real, maxScale: real): (s: real)
    ensures minScale <= maxScale ==> minScale <= s <= maxScale
    ensures startDistance != 0.0 && minScale <= nowDistance / startDistance <= maxScale ==> s == nowDistance / startDistance
    ensures startDistance == 0.0 ==> s == maxScale
  {
    if startDistance == 0.0 then maxScale else Clamp(nowDistance / startDistance, minScale, maxScale)
  }

  /** A frozen finger's canvas point in canvas pixels. */
  function StartCanvasCoords(L: Layout, start: TouchStart): Point {
    Point(start.canvasRel.x * L.canvas.width, start.canvasRel.y * L.canvas.height)
  }

  /** The pinch's projection of a canvas-relative point under the new scale and the scale-only translate. */
  function ProjectPosScaled(L: Layout, futureScale: real, scaleDelta: Point, p: Point): (r: Point)
    requires Measured(L)
    ensures var e := Extent(L, futureScale, p);
            r == Point(L.offset.left + e.x + scaleDelta.x, L.offset.top + e.y + scaleDelta.y)
  {
    var n := NaturalScale(L);
    ScaledOrder(L.canvas.width, p.x, n, futureScale);
    ScaledOrder(L.canvas.height, p.y, n, futureScale);
    Point(L.offset.left + L.canvas.width * p.x * n * futureScale + scaleDelta.x,
          L.offset.top + L.canvas.height * p.y * n * futureScale + scaleDelta.y)
  }

  lemma ScaledOrder(w: real, x: real, n: real, s: real)
    ensures w * x * n * s == w * (s * n) * x
  {
  }

  /**
    * The transform a pinch commits once its scale and angle are known: solve
    * the translate that puts the anchor's canvas point on the finger at
    * rotation 0, then rotate the origin's projection about the anchor's and
    * add the difference.
    */
  function PinchAround(L: Layout, T: Transform, t: Trig, futureScale: real, anchor: Point, finger: Point, deltaAngle: real): (r: Transform)
    requires Measured(L)
    ensures r.scale == futureScale && r.rotate == deltaAngle
    ensures Lawful(t) && deltaAngle == 0.0 ==>
              Point(r.translateX, r.translateY) == PinchScaleDelta(L, T, t, futureScale, anchor, finger)
  {
    var scaleDelta := PinchScaleDelta(L, T, t, futureScale, anchor, finger);
    var originWithoutRotation := ProjectPosScaled(L, futureScale, scaleDelta, Point(0.0, 0.0));
    var anchorWithoutRotation := ProjectPosScaled(L, futureScale, scaleDelta, anchor);
    var originWithRotation := RotatePoint(t, originWithoutRotation, anchorWithoutRotation, deltaAngle);
    Transform(scaleDelta.x + (originWithRotation.x - originWithoutRotation.x),
              scaleDelta.y + (originWithRotation.y - originWithoutRotation.y),
              futureScale, deltaAngle)
  }

  /**
    * The scale-only translate of a pinch: the projection that puts the
    * anchor's canvas point on the finger at rotation 0, which is the finger
    * minus the anchor's extent.
    */
  function PinchScaleDelta(L: Layout, T: Transform, t: Trig, futureScale: real, anchor: Point, finger: Point): (d: Point)
    requires Measured(L)
    ensures Lawful(t) ==>
              d == Point(finger.x - Extent(L, futureScale, anchor).x, finger.y - Extent(L, futureScale, anchor).y)
  {
    var innerWrapperRelPos := Point(finger.x / WrapperInnerWidth(L), finger.y / WrapperInnerHeight(L));
    PinchProjection(L, T, t, futureScale, anchor, finger);
    CalcProjectionTranslate(L, T, t, futureScale, innerWrapperRelPos, anchor, Some(0.0))
  }

  /** Projecting a wrapper pixel, given as its fraction of the inner size, without rotation. */
  lemma PinchProjection(L: Layout, T: Transform, t: Trig, futureScale: real, anchor: Point, finger: Point)
    requires Measured(L)
    ensures var innerWrapperRelPos := Point(finger.x / WrapperInnerWidth(L), finger.y / WrapperInnerHeight(L));
            var e := Extent(L, futureScale, anchor);
            Lawful(t) ==>
              CalcProjectionTranslate(L, T, t, futureScale, innerWrapperRelPos, anchor, Some(0.0))
              == Point(finger.x - e.x, finger.y - e.y)
  {
    var w, h := WrapperInnerWidth(L), WrapperInnerHeight(L);
    var innerWrapperRelPos := Point(finger.x / w, finger.y / h);
    ProjectionForm(L, T, t, futureScale, innerWrapperRelPos, anchor, Some(0.0));
    DivMulCancel(finger.x, w);
    DivMulCancel(finger.y, h);
    var e := Extent(L, futureScale, anchor);
    assert Some(0.0).GetOr(T.rotate) == 0.0;
    assert Lawful(t) ==> RotatePoint(t, e, Point(0.0, 0.0), 0.0) == e;
  }

  /**
    * The two-finger step of `handleTouchmove`: scale from the ratio of finger
    * distances, rotation from the change of the fingers' angle, anchored at
    * the first finger.
    */
  function PinchTransform(
    L: Layout, T: Transform, t: Trig, starts: seq<TouchStart>, positions: seq<Point>,
    minScale: real, maxScale: real): (r: Transform)
    requires Measured(L) && |starts| >= 2 && |positions| >= 2
    ensures minScale <= maxScale ==> minScale <= r.scale <= maxScale
    ensures r.rotate == AngleBetween(t, positions[0], positions[1])
                        - AngleBetween(t, StartCanvasCoords(L, starts[0]), StartCanvasCoords(L, starts[1]))
  {
    var fingerOneStart := StartCanvasCoords(L, starts[0]);
    var fingerTwoStart := StartCanvasCoords(L, starts[1]);
    var startDistance := Distance(t, fingerOneStart, fingerTwoStart);
    var nowDistance := Distance(t, positions[0], positions[1]) / NaturalScale(L);
    var futureScale := PinchScale(nowDistance, startDistance, minScale, maxScale);
    var startAngle := t.atan2(fingerTwoStart.y - fingerOneStart.y, fingerTwoStart.x - fingerOneStart.x);
    var newAngle := t.atan2(positions[1].y - positions[0].y, positions[1].x - positions[0].x);
    PinchAround(L, T, t, futureScale, starts[0].canvasRel, positions[0], newAngle - startAngle)
  }

  /** The anchor of `applyTransform` lands on its wrapper point when the live rotation is 0. */
  lemma AppliedAnchor(L: Layout, T: Transform, t: Trig, newScale: real, wrapperInnerCoords: Point, canvasAnchorCoords: Point)
    requires Measured(L)
    ensures var d := CalcProjectionTranslate(L, T, t, newScale, wrapperInnerCoords, canvasAnchorCoords, Some(0.0));
            T.rotate == 0.0 ==>
              ComposeRelPoint(L, Transform(d.x, d.y, newScale, T.rotate), t, canvasAnchorCoords)
              == Point(L.offset.left + wrapperInnerCoords.x * WrapperInnerWidth(L),
                       L.offset.top + wrapperInnerCoords.y * WrapperInnerHeight(L))
  {
    ProjectionAnchors(L, T, t, newScale, wrapperInnerCoords, canvasAnchorCoords, Some(0.0));
  }

  /**
    * A pinch keeps the first finger's frozen canvas point under that finger:
    * after the step the point composes to the finger's inner position.
    */
  lemma PinchPinsAnchor(L: Layout, T: Transform, t: Trig, futureScale: real, anchor: Point, finger: Point, deltaAngle: real)
    requires Lawful(t) && Measured(L)
    ensures ComposeRelPoint(L, PinchAround(L, T, t, futureScale, anchor, finger, deltaAngle), t, anchor)
         == Point(L.offset.left + finger.x, L.offset.top + finger.y)
  {
    var o := Point(0.0, 0.0);
    var d := PinchScaleDelta(L, T, t, futureScale, anchor, finger);
    var e := Extent(L, futureScale, anchor);
    var origin := ProjectPosScaled(L, futureScale, d, o);
    var anchorAt := ProjectPosScaled(L, futureScale, d, anchor);
    var back := RotatePoint(t, Point(-e.x, -e.y), o, deltaAngle);
    assert RotatePoint(t, origin, anchorAt, deltaAngle) == Point(anchorAt.x + back.x, anchorAt.y + back.y) by {
      assert Point(origin.x - anchorAt.x, origin.y - anchorAt.y) == Point(-e.x, -e.y);
      RotatePointByVector(t, origin, anchorAt, deltaAngle);
      RotateVectorAboutOrigin(t, VectorBetween(anchorAt, origin), deltaAngle);
    }
    var r := PinchAround(L, T, t, futureScale, anchor, finger, deltaAngle);
    assert r == Transform(finger.x + back.x, finger.y + back.y, futureScale, deltaAngle);
    var forth := RotatePoint(t, e, o, deltaAngle);
    assert forth.x + back.x == 0.0 && forth.y + back.y == 0.0 by {
      RotateOpposite(t, e, deltaAngle);
    }
    ComposeRelPointForm(L, r, t, anchor);
  }

  /** Rotation about the origin is linear: a vector and its opposite turn into opposites. */
  lemma RotateOpposite(t: Trig, v: Point, a: real)
    ensures var p, q := RotatePoint(t, v, Point(0.0, 0.0), a), RotatePoint(t, Point(-v.x, -v.y), Point(0.0, 0.0), a);
            p.x + q.x == 0.0 && p.y + q.y == 0.0
  {
    var c, s := t.cos(a), t.sin(a);
    assert c * (-v.x) == -(c * v.x) && s * (-v.y) == -(s * v.y);
    assert s * (-v.x) == -(s * v.x) && c * (-v.y) == -(c * v.y);
  }

  /** The whole pinch step keeps the first finger's frozen canvas point under it, and its scale within the limits. */
  lemma PinchPinsFirstFinger(
    L: Layout, T: Transform, t: Trig, starts: seq<TouchStart>, positions: seq<Point>,
    minScale: real, maxScale: real)
    requires Lawful(t) && Measured(L) && |starts| >= 2 && |positions| >= 2
    ensures ComposeRelPoint(L, PinchTransform(L, T, t, starts, positions, minScale, maxScale), t, starts[0].canvasRel)
         == Point(L.offset.left + positions[0].x, L.offset.top + positions[0].y)
  {
    var fingerOneStart := StartCanvasCoords(L, starts[0]);
    var fingerTwoStart := StartCanvasCoords(L, starts[1]);
    var futureScale := PinchScale(Distance(t, positions[0], positions[1]) / NaturalScale(L),
                                  Distance(t, fingerOneStart, fingerTwoStart), minScale, maxScale);
    var startAngle := t.atan2(fingerTwoStart.y - fingerOneStart.y, fingerTwoStart.x - fingerOneStart.x);
    var newAngle := t.atan2(positions[1].y - positions[0].y, positions[1].x - positions[0].x);
    PinchPinsAnchor(L, T, t, futureScale, starts[0].canvasRel, positions[0], newAngle - startAngle);
  }

  /** The pinch in client terms: the first finger's frozen canvas point ends under the first touch. */
  lemma PinchUnderFirstTouch(
    L: Layout, T: Transform, t: Trig, starts: seq<TouchStart>, touches: seq<Point>,
    minScale: real, maxScale: real)
    requires Lawful(t) && Measured(L) && |starts| >= 2 && |touches| >= 2
    ensures var positions := WrapperPositions(L.offset, L.wrapper, touches);
            ComposeRelPoint(L, PinchTransform(L, T, t, starts, positions, minScale, maxScale), t, starts[0].canvasRel)
            == Point(touches[0].x - L.wrapper.x, touches[0].y - L.wrapper.y)
  {
    var positions := WrapperPositions(L.offset, L.wrapper, touches);
    PinchPinsFirstFinger(L, T, t, starts, positions, minScale, maxScale);
    assert positions[0].x + WrapperInnerX(L.offset, L.wrapper) == touches[0].x;
    assert positions[0].y + WrapperInnerY(L.offset, L.wrapper) == touches[0].y;
  }

  /**
    * Zooming about the cursor: with the translate solved for the point under
    * the cursor, that point composes back to the cursor's position in the
    * wrapper's box, whatever the new scale.
    */
  lemma ZoomKeepsCursorPoint(L: Layout, T: Transform, t: Trig, newScale: real, client: Point)
    requires Lawful(t) && Measured(L) && T.scale != 0.0
    ensures var canvasPoint := NormalizeMatrixCoordinates(L, T, t, client);
            var d := CalcProjectionTranslate(L, T, t, newScale, RelativeWrapperCoordinatesFromClientCoords(L, client), canvasPoint, None);
            ComposeRelPoint(L, Transform(d.x, d.y, newScale, T.rotate), t, canvasPoint)
              == Point(client.x - L.wrapper.x, client.y - L.wrapper.y)
  {
    var canvasPoint := NormalizeMatrixCoordinates(L, T, t, client);
    var rel := RelativeWrapperCoordinatesFromClientCoords(L, client);
    ProjectionAnchors(L, T, t, newScale, rel, canvasPoint, None);
  }

  /**
    * Rotating about a canvas point: the translate that reconciles the point's
    * current position with its position at zero translate and the new
    * rotation leaves the point where it was.
    */
  lemma RotationKeepsPoint(L: Layout, T: Transform, t: Trig, p: Point, rotate: real)
    requires Measured(L)
    ensures var virtualPoint := ComposeRelPoint(L, Transform(0.0, 0.0, T.scale, rotate), t, p);
            var currPoint := ComposeRelPoint(L, T, t, p);
            var T' := Transform(currPoint.x - virtualPoint.x, currPoint.y - virtualPoint.y, T.scale, rotate);
            ComposeRelPoint(L, T', t, p) == currPoint
  {
    var virtualPoint := ComposeRelPoint(L, Transform(0.0, 0.0, T.scale, rotate), t, p);
    var currPoint := ComposeRelPoint(L, T, t, p);
    var T' := Transform(currPoint.x - virtualPoint.x, currPoint.y - virtualPoint.y, T.scale, rotate);
    ComposeRelPointForm(L, Transform(0.0, 0.0, T.scale, rotate), t, p);
    ComposeRelPointForm(L, T', t, p);
  }

  // ---------------------------------------------------------------------------
  // The engine
  // ---------------------------------------------------------------------------

  /**
    * The `Zoompinch` engine. The live transform, the padding, the scale
    * limits, the measured boxes (absent until measured) and the gesture
    * sessions are fields the handlers assign. `updates` counts the
    * re-renders the source triggers through `update()`.
    */
  class Zoompinch {
    var offset: Offset
    var translateX: real
    var translateY: real
    var scale: real
    var rotate: real
    var minScale: real
    var maxScale: real
    var wrapperBounds: Option<Bounds>
    var canvasBounds: Option<Bounds>
    var gestureStartRotate: real
    var dragStart: Option<Point>
    var dragStartFrozenX: Option<real>
    var dragStartFrozenY: Option<real>
    var touchStarts: Option<seq<TouchStart>>
    var touchStartTranslateX: real
    var touchStartTranslateY: real
    const trig: Trig
    ghost var updates: nat

    /** The trigonometry the engine computes with obeys the laws the proofs use. */
    ghost predicate Valid() {
      Lawful(trig)
    }

    /** Both boxes are measured, with a positive inner area and canvas size. */
    predicate Ready()
      reads this`offset, this`wrapperBounds, this`canvasBounds
    {
      wrapperBounds.Some? && canvasBounds.Some? && Measured(Layout(offset, wrapperBounds.value, canvasBounds.value))
    }

    function CurrentLayout(): Layout
      reads this`offset, this`wrapperBounds, this`canvasBounds
      requires wrapperBounds.Some? && canvasBounds.Some?
    {
      Layout(offset, wrapperBounds.value, canvasBounds.value)
    }

    function CurrentTransform(): Transform
      reads this`translateX, this`translateY, this`scale, this`rotate
    {
      Transform(translateX, translateY, scale, rotate)
    }

    /** A new engine with no measured boxes and no session; the source's default limits are `DefaultMinScale` and `DefaultMaxScale`. */
    constructor(offset: Offset, translateX: real, translateY: real, scale: real, rotate: real, trig: Trig,
                minScale: real := DefaultMinScale, maxScale: real := DefaultMaxScale)
      requires Lawful(trig)
      ensures Valid()
      ensures this.offset == offset && this.trig == trig
      ensures CurrentTransform() == Transform(translateX, translateY, scale, rotate)
      ensures this.minScale == minScale && this.maxScale == maxScale
      ensures wrapperBounds.None? && canvasBounds.None?
      ensures gestureStartRotate == 0.0
      ensures dragStart.None? && dragStartFrozenX.None? && dragStartFrozenY.None?
      ensures touchStarts.None? && touchStartTranslateX == 0.0 && touchStartTranslateY == 0.0
      ensures updates == 0
    {
      this.offset := offset;
      this.translateX := translateX;
      this.translateY := translateY;
      this.scale := scale;
      this.rotate := rotate;
      this.minScale := minScale;
      this.maxScale := maxScale;
      this.trig := trig;
      wrapperBounds := None;
      canvasBounds := None;
      gestureStartRotate := 0.0;
      dragStart := None;
      dragStartFrozenX := None;
      dragStartFrozenY := None;
      touchStarts := None;
      touchStartTranslateX := 0.0;
      touchStartTranslateY := 0.0;
      updates := 0;
    }

    /** The first animation frame: both boxes are taken as measured, unconverted. */
    method Initialize(wrapper: Bounds, canvas: Bounds)
      modifies this`wrapperBounds, this`canvasBounds, this`updates
      ensures wrapperBounds == Some(wrapper) && canvasBounds == Some(canvas)
      ensures updates == old(updates) + 1
    {
      wrapperBounds := Some(wrapper);
      canvasBounds := Some(canvas);
      updates := updates + 1;
    }

    /** The wrapper's resize observer: the wrapper box is replaced, the transform is kept. */
    method ObserveWrapperResize(wrapper: Bounds)
      modifies this`wrapperBounds, this`updates
      ensures wrapperBounds == Some(wrapper)
      ensures updates == old(updates) + 1
    {
      wrapperBounds := Some(wrapper);
      updates := updates + 1;
    }

    /**
      * The canvas's resize observer: the measured (transformed) canvas box is
      * turned back into its natural box under the rendering transform. When
      * the measured box is what the rendering transform makes of a natural
      * box, the stored box is that natural box up to the rounding.
      * `Ready()` excludes an unmeasured 0×0 canvas. From that state the source
      * computes an infinite natural scale, so each later observation divides
      * the measured box by Infinity and stores a 0×0 box again.
      */
    method ObserveCanvasResize(rect: Bounds, ghost natural: Bounds)
      requires Valid() && Ready() && scale != 0.0
      modifies this`canvasBounds, this`updates
      ensures canvasBounds == Some(GetUntransformedRect(
                trig, rect, offset.left + translateX, offset.top + translateY,
                old(RenderingScale(CurrentLayout(), CurrentTransform())), rotate))
      ensures var k := old(RenderingScale(CurrentLayout(), CurrentTransform()));
              var c := canvasBounds.value;
              k > 0.0 && natural.width >= 0.0 && natural.height >= 0.0
              && rect == TransformRect(trig, natural, offset.left + translateX, offset.top + translateY, k, rotate) ==>
                Abs(c.x - natural.x) <= 0.00005 && Abs(c.y - natural.y) <= 0.00005
                && Abs(c.width - natural.width) <= 0.00005 && Abs(c.height - natural.height) <= 0.00005
      ensures updates == old(updates) + 1
    {
      var k := RenderingScale(CurrentLayout(), CurrentTransform());
      var tx, ty := offset.left + translateX, offset.top + translateY;
      if k > 0.0 && natural.width >= 0.0 && natural.height >= 0.0 {
        UntransformedRectRecovers(trig, natural, tx, ty, k, rotate);
      }
      canvasBounds := Some(GetUntransformedRect(trig, rect, tx, ty, k, rotate));
      updates := updates + 1;
    }

    // Native gestures

    method HandleGesturestart()
      modifies this`gestureStartRotate
      ensures gestureStartRotate == rotate
    {
      gestureStartRotate := rotate;
    }

    /**
      * A native rotation step: a zero rotation changes nothing; otherwise the
      * canvas turns to the rotation at gesture start plus the event's, about
      * the canvas point under the event, which stays under it.
      */
    method HandleGesturechange(event: GestureEvent)
      requires Valid()
      requires event.rotation != 0.0 ==> Ready() && scale != 0.0
      modifies this`translateX, this`translateY, this`rotate, this`updates
      ensures event.rotation == 0.0 ==>
                CurrentTransform() == old(CurrentTransform()) && updates == old(updates)
      ensures event.rotation != 0.0 ==>
                && rotate == old(gestureStartRotate) + DegreeToRadians(trig, event.rotation)
                && ComposeRelPoint(CurrentLayout(), CurrentTransform(), trig,
                                   old(NormalizeMatrixCoordinates(CurrentLayout(), CurrentTransform(), trig, event.client)))
                   == Point(event.client.x - wrapperBounds.value.x, event.client.y - wrapperBounds.value.y)
                && updates == old(updates) + 1
    {
      if event.rotation == 0.0 {
        return;
      }
      var relPos := NormalizeMatrixCoordinates(CurrentLayout(), CurrentTransform(), trig, event.client);
      NormalizedPointUnderClient(CurrentLayout(), CurrentTransform(), trig, event.client);
      RotateCanvas(relPos, gestureStartRotate + DegreeToRadians(trig, event.rotation));
    }

    // Mouse drag

    method HandleMousedown(event: MouseEvent)
      modifies this`dragStart, this`dragStartFrozenX, this`dragStartFrozenY
      ensures dragStart == Some(event.client)
      ensures dragStartFrozenX == Some(translateX) && dragStartFrozenY == Some(translateY)
    {
      dragStart := Some(event.client);
      dragStartFrozenX := Some(translateX);
      dragStartFrozenY := Some(translateY);
    }

    method HandleMouseup(event: MouseEvent)
      modifies this`dragStart, this`dragStartFrozenX, this`dragStartFrozenY
      ensures dragStart.None? && dragStartFrozenX.None? && dragStartFrozenY.None?
    {
      dragStart := None;
      dragStartFrozenX := None;
      dragStartFrozenY := None;
    }

    /**
      * A drag step: without a drag session nothing changes; with one, the
      * translate is the one frozen at mousedown moved by the pointer's travel
      * since then, so the canvas follows the pointer.
      */
    method HandleMousemove(event: MouseEvent)
      modifies this`translateX, this`translateY, this`updates
      ensures !(dragStart.Some? && dragStartFrozenX.Some? && dragStartFrozenY.Some?) ==>
                translateX == old(translateX) && translateY == old(translateY) && updates == old(updates)
      ensures dragStart.Some? && dragStartFrozenX.Some? && dragStartFrozenY.Some? ==>
                && translateX - dragStartFrozenX.value == event.client.x - dragStart.value.x
                && translateY - dragStartFrozenY.value == event.client.y - dragStart.value.y
                && updates == old(updates) + 1
    {
      if dragStart.Some? && dragStartFrozenX.Some? && dragStartFrozenY.Some? {
        var deltaX := event.client.x - dragStart.value.x;
        var deltaY := event.client.y - dragStart.value.y;
        translateX := dragStartFrozenX.value - -deltaX;
        translateY := dragStartFrozenY.value - -deltaY;
        updates := updates + 1;
      }
    }

    // Wheel

    /**
      * A wheel step. Without `ctrlKey` the canvas pans against the (possibly
      * rewritten) deltas. With it the scale takes a clamped zoom step and the
      * translate is solved so that the canvas point under the cursor stays
      * under it; rotation is untouched.
      */
    method HandleWheel(event: WheelEvent)
      requires Valid()
      requires event.ctrlKey ==> Ready() && scale != 0.0
      modifies this`translateX, this`translateY, this`scale, this`updates
      ensures !event.ctrlKey ==>
                && translateX == old(translateX) - WheelDeltas(event).x
                && translateY == old(translateY) - WheelDeltas(event).y
                && scale == old(scale)
      ensures event.ctrlKey ==>
                && scale == ZoomScale(old(scale), WheelDeltas(event).y, minScale, maxScale)
                && Point(translateX, translateY) == CalcProjectionTranslate(
                     CurrentLayout(), old(CurrentTransform()), trig, scale,
                     RelativeWrapperCoordinatesFromClientCoords(CurrentLayout(), event.client),
                     old(NormalizeMatrixCoordinates(CurrentLayout(), CurrentTransform(), trig, event.client)), None)
                && ComposeRelPoint(CurrentLayout(), CurrentTransform(), trig,
                                   old(NormalizeMatrixCoordinates(CurrentLayout(), CurrentTransform(), trig, event.client)))
                   == Point(event.client.x - wrapperBounds.value.x, event.client.y - wrapperBounds.value.y)
      ensures updates == old(updates) + 1
    {
      var d := WheelDeltas(event);
      var currScale := scale;
      if event.ctrlKey {
        var newScale := ZoomScale(currScale, d.y, minScale, maxScale);
        var coords := RelativeWrapperCoordinatesFromClientCoords(CurrentLayout(), event.client);
        var canvasPoint := NormalizeMatrixCoordinates(CurrentLayout(), CurrentTransform(), trig, event.client);
        ZoomKeepsCursorPoint(CurrentLayout(), CurrentTransform(), trig, newScale, event.client);
        var translate := CalcProjectionTranslate(CurrentLayout(), CurrentTransform(), trig, newScale, coords, canvasPoint, None);
        translateX := translate.x;
        translateY := translate.y;
        scale := newScale;
      } else {
        translateX := translateX - d.x;
        translateY := translateY - d.y;
      }
      updates := updates + 1;
    }

    // Touch

    /** A touch session starts: every touch is frozen and so is the translate. */
    method HandleTouchstart(event: TouchEvent)
      requires |event.touches| > 0 ==> Ready() && scale != 0.0
      modifies this`touchStarts, this`touchStartTranslateX, this`touchStartTranslateY
      ensures |event.touches| == 0 ==> touchStarts == Some([])
      ensures |event.touches| > 0 ==>
                touchStarts == Some(FreezeTouches(CurrentLayout(), CurrentTransform(), trig, event.touches))
      ensures touchStartTranslateX == translateX && touchStartTranslateY == translateY
    {
      touchStarts := Some(if |event.touches| == 0 then [] else FreezeTouches(CurrentLayout(), CurrentTransform(), trig, event.touches));
      touchStartTranslateX := translateX;
      touchStartTranslateY := translateY;
    }

    /** The session is a pinch when the move and the session both have two or more fingers. */
    predicate IsPinch(event: TouchEvent)
      reads this`touchStarts
    {
      touchStarts.Some? && |event.touches| >= 2 && |touchStarts.value| >= 2
    }

    /**
      * A touch move. Without a session nothing changes. With one finger the
      * canvas follows the finger from where the session froze it. With two
      * the pinch transform is committed: scale within the limits and rotate
      * set to the in-gesture angle change; `PinchUnderFirstTouch` shows it
      * keeps the first finger's frozen canvas point under that finger.
      */
    method HandleTouchmove(event: TouchEvent)
      requires Valid()
      requires |event.touches| > 0 ==> wrapperBounds.Some?
      requires touchStarts.Some? ==> |event.touches| > 0
      requires touchStarts.Some? && !IsPinch(event) ==> |touchStarts.value| > 0
      requires IsPinch(event) ==> Ready()
      modifies this`translateX, this`translateY, this`scale, this`rotate, this`updates
      ensures touchStarts.None? ==> CurrentTransform() == old(CurrentTransform()) && updates == old(updates)
      ensures touchStarts.Some? && !IsPinch(event) ==>
                && translateX == touchStartTranslateX + (event.touches[0].x - touchStarts.value[0].client.x)
                && translateY == touchStartTranslateY + (event.touches[0].y - touchStarts.value[0].client.y)
                && scale == old(scale) && rotate == old(rotate)
      ensures IsPinch(event) ==>
                && CurrentTransform() == PinchTransform(
                     CurrentLayout(), old(CurrentTransform()), trig, touchStarts.value,
                     WrapperPositions(offset, wrapperBounds.value, event.touches), minScale, maxScale)
                && (minScale <= maxScale ==> minScale <= scale <= maxScale)
      ensures touchStarts.Some? ==> updates == old(updates) + 1
    {
      if touchStarts.Some? {
        updates := updates + 1;
        var starts := touchStarts.value;
        if |event.touches| >= 2 && |starts| >= 2 {
          Pinch(event);
        } else {
          var deltaX := event.touches[0].x - starts[0].client.x;
          var deltaY := event.touches[0].y - starts[0].client.y;
          translateX := touchStartTranslateX + deltaX;
          translateY := touchStartTranslateY + deltaY;
        }
      }
    }

    /** The pinch step of a touch move: the pinch transform is committed. */
    method Pinch(event: TouchEvent)
      requires Valid() && IsPinch(event) && Ready()
      modifies this`translateX, this`translateY, this`scale, this`rotate
      ensures CurrentTransform() == PinchTransform(
                CurrentLayout(), old(CurrentTransform()), trig, touchStarts.value,
                WrapperPositions(offset, wrapperBounds.value, event.touches), minScale, maxScale)
      ensures minScale <= maxScale ==> minScale <= scale <= maxScale
      ensures ComposeRelPoint(CurrentLayout(), CurrentTransform(), trig, touchStarts.value[0].canvasRel)
              == Point(event.touches[0].x - wrapperBounds.value.x, event.touches[0].y - wrapperBounds.value.y)
    {
      var L, T := CurrentLayout(), CurrentTransform();
      var touchPositions := WrapperPositions(offset, wrapperBounds.value, event.touches);
      var next := PinchTransform(L, T, trig, touchStarts.value, touchPositions, minScale, maxScale);
      PinchUnderFirstTouch(L, T, trig, touchStarts.value, event.touches, minScale, maxScale);
      scale, rotate, translateX, translateY := next.scale, next.rotate, next.translateX, next.translateY;
    }

    /** A touch ends: with no finger left the session ends, otherwise it restarts from the remaining fingers and the live translate. */
    method HandleTouchend(event: TouchEvent)
      requires |event.touches| > 0 ==> Ready() && scale != 0.0
      modifies this`touchStarts, this`touchStartTranslateX, this`touchStartTranslateY
      ensures |event.touches| == 0 ==>
                && touchStarts.None?
                && touchStartTranslateX == old(touchStartTranslateX) && touchStartTranslateY == old(touchStartTranslateY)
      ensures |event.touches| > 0 ==>
                && touchStarts == Some(FreezeTouches(CurrentLayout(), CurrentTransform(), trig, event.touches))
                && touchStartTranslateX == translateX && touchStartTranslateY == translateY
    {
      if |event.touches| == 0 {
        touchStarts := None;
      } else {
        touchStarts := Some(FreezeTouches(CurrentLayout(), CurrentTransform(), trig, event.touches));
        touchStartTranslateX := translateX;
        touchStartTranslateY := translateY;
      }
    }

    // Programmatic transforms

    /**
      * `applyTransform`: the scale is set as given (no clamping) and the
      * translate solved for rotation 0; the live rotation is kept, so the
      * anchor lands on its wrapper point when that rotation is 0.
      */
    method ApplyTransform(newScale: real, wrapperInnerCoords: Point, canvasAnchorCoords: Point)
      requires Ready()
      modifies this`translateX, this`translateY, this`scale, this`updates
      ensures scale == newScale
      ensures Point(translateX, translateY) == CalcProjectionTranslate(
                CurrentLayout(), old(CurrentTransform()), trig, newScale, wrapperInnerCoords, canvasAnchorCoords, Some(0.0))
      ensures rotate == 0.0 ==>
                ComposeRelPoint(CurrentLayout(), CurrentTransform(), trig, canvasAnchorCoords)
                == Point(offset.left + wrapperInnerCoords.x * WrapperInnerWidth(CurrentLayout()),
                         offset.top + wrapperInnerCoords.y * WrapperInnerHeight(CurrentLayout()))
      ensures updates == old(updates) + 1
    {
      var L, T := CurrentLayout(), CurrentTransform();
      var scaleTranslation := CalcProjectionTranslate(L, T, trig, newScale, wrapperInnerCoords, canvasAnchorCoords, Some(0.0));
      AppliedAnchor(L, T, trig, newScale, wrapperInnerCoords, canvasAnchorCoords);
      scale, translateX, translateY := newScale, scaleTranslation.x, scaleTranslation.y;
      assert CurrentLayout() == L && CurrentTransform() == Transform(scaleTranslation.x, scaleTranslation.y, newScale, T.rotate);
      updates := updates + 1;
    }

    /**
      * `rotateCanvas`: turn to `newRotate` about the canvas-relative point
      * `p`, which composes to the same wrapper position before and after;
      * the scale is kept.
      */
    method RotateCanvas(p: Point, newRotate: real)
      requires Ready()
      modifies this`translateX, this`translateY, this`rotate, this`updates
      ensures rotate == newRotate
      ensures var virtualPoint := ComposeRelPoint(CurrentLayout(), Transform(0.0, 0.0, scale, newRotate), trig, p);
              var currPoint := old(ComposeRelPoint(CurrentLayout(), CurrentTransform(), trig, p));
              translateX == currPoint.x - virtualPoint.x && translateY == currPoint.y - virtualPoint.y
      ensures ComposeRelPoint(CurrentLayout(), CurrentTransform(), trig, p)
              == old(ComposeRelPoint(CurrentLayout(), CurrentTransform(), trig, p))
      ensures updates == old(updates) + 1
    {
      var virtualPoint := ComposeRelPoint(CurrentLayout(), Transform(0.0, 0.0, scale, newRotate), trig, p);
      var currPoint := ComposeRelPoint(CurrentLayout(), CurrentTransform(), trig, p);
      RotationKeepsPoint(CurrentLayout(), CurrentTransform(), trig, p, newRotate);
      translateX := currPoint.x - virtualPoint.x;
      translateY := currPoint.y - virtualPoint.y;
      rotate := newRotate;
      updates := updates + 1;
    }
  }
}
