/**
  * The coordinate maps of the engine, as pure functions of a snapshot of its
  * state: the padding `Offset`, the measured wrapper and canvas boxes
  * (`Layout`) and the live `Transform`. Four spaces are involved: client
  * (viewport) coordinates, wrapper-inner pixels (origin at the padded
  * top-left of the wrapper), wrapper-relative fractions of the inner size
  * and canvas-relative fractions of the canvas's natural size.
  */
module Mapper {
  import opened Wrappers
  import opened Dom
  import opened Helpers

  /** Padding between the wrapper's box and its inner area. */
  datatype Offset = Offset(top: real, right: real, bottom: real, left: real)

  /** Translate in pixels, uniform scale (relative to the natural scale) and rotation in radians. */
  datatype Transform = Transform(translateX: real, translateY: real, scale: real, rotate: real)

  /** The padding and the two measured boxes. */
  datatype Layout = Layout(offset: Offset, wrapper: Bounds, canvas: Bounds)

  function WrapperInnerX(offset: Offset, wrapper: Bounds): real {
    wrapper.x + offset.left
  }

  function WrapperInnerY(offset: Offset, wrapper: Bounds): real {
    wrapper.y + offset.top
  }

  function WrapperInnerWidth(L: Layout): real {
    L.wrapper.width - L.offset.left - L.offset.right
  }

  function WrapperInnerHeight(L: Layout): real {
    L.wrapper.height - L.offset.top - L.offset.bottom
  }

  /**
    * The inner area and the padding make up the wrapper's box: the inner
    * origin sits `left`/`top` inside the box, and the inner far edges sit
    * `right`/`bottom` inside the box's far edges.
    */
  lemma InnerAreaInWrapper(L: Layout)
    ensures WrapperInnerX(L.offset, L.wrapper) - L.offset.left == L.wrapper.x
    ensures WrapperInnerY(L.offset, L.wrapper) - L.offset.top == L.wrapper.y
    ensures WrapperInnerX(L.offset, L.wrapper) + WrapperInnerWidth(L) + L.offset.right == L.wrapper.x + L.wrapper.width
    ensures WrapperInnerY(L.offset, L.wrapper) + WrapperInnerHeight(L) + L.offset.bottom == L.wrapper.y + L.wrapper.height
  {
  }

  /** Both boxes measured with a positive inner area and a positive canvas size. */
  predicate Measured(L: Layout) {
    && WrapperInnerWidth(L) > 0.0
    && WrapperInnerHeight(L) > 0.0
    && L.canvas.width > 0.0
    && L.canvas.height > 0.0
  }

  function WrapperInnerRatio(L: Layout): real
    requires WrapperInnerHeight(L) != 0.0
  {
    WrapperInnerWidth(L) / WrapperInnerHeight(L)
  }

  function CanvasNaturalRatio(L: Layout): real
    requires L.canvas.height != 0.0
  {
    L.canvas.width / L.canvas.height
  }

  /**
    * The scale that fits the canvas into the inner area: by width when the
    * canvas is at least as wide, relatively, as the inner area, else by height.
    */
  function NaturalScale(L: Layout): (s: real)
    requires Measured(L)
    ensures s > 0.0
  {
    if CanvasNaturalRatio(L) >= WrapperInnerRatio(L) then
      WrapperInnerWidth(L) / L.canvas.width
    else
      WrapperInnerHeight(L) / L.canvas.height
  }

  lemma CrossMultiply(a: real, b: real, c: real, d: real)
    requires b > 0.0 && d > 0.0
    ensures a / b >= c / d <==> a * d >= c * b
  {
    assert a / b * (b * d) == a * d;
    assert c / d * (b * d) == c * b;
  }

  lemma MulDivLe(a: real, b: real, c: real, d: real)
    requires b > 0.0
    ensures a * c / b <= d <==> a * c <= d * b
    ensures a * c / b < d <==> a * c < d * b
  {
    assert a * c / b * b == a * c;
  }

  /**
    * The natural scale makes the canvas fill one inner dimension exactly
    * and stay within the other.
    */
  lemma NaturalScaleFits(L: Layout)
    requires Measured(L)
    ensures var s, iw, ih := NaturalScale(L), WrapperInnerWidth(L), WrapperInnerHeight(L);
            if CanvasNaturalRatio(L) >= WrapperInnerRatio(L) then
              L.canvas.width * s == iw && L.canvas.height * s <= ih
            else
              L.canvas.height * s == ih && L.canvas.width * s < iw
  {
    var cw, ch := L.canvas.width, L.canvas.height;
    var iw, ih := WrapperInnerWidth(L), WrapperInnerHeight(L);
    CrossMultiply(cw, ch, iw, ih);
    if CanvasNaturalRatio(L) >= WrapperInnerRatio(L) {
      assert cw * (iw / cw) == iw;
      assert ch * (iw / cw) == ch * iw / cw;
      MulDivLe(ch, cw, iw, ih);
    } else {
      assert ch * (ih / ch) == ih;
      assert cw * (ih / ch) == cw * ih / ch;
      MulDivLe(cw, ch, ih, iw);
    }
  }

  /** An 800 by 600 inner area and a 400 by 300 canvas: equal ratios, width fit, natural scale 2. */
  lemma NaturalScaleExample()
    ensures var L := Layout(Offset(0.0, 0.0, 0.0, 0.0), Bounds(0.0, 0.0, 800.0, 600.0), Bounds(0.0, 0.0, 400.0, 300.0));
            Measured(L) && CanvasNaturalRatio(L) == WrapperInnerRatio(L) && NaturalScale(L) == 2.0
  {
    var L := Layout(Offset(0.0, 0.0, 0.0, 0.0), Bounds(0.0, 0.0, 800.0, 600.0), Bounds(0.0, 0.0, 400.0, 300.0));
    assert WrapperInnerRatio(L) == 800.0 / 600.0;
    assert CanvasNaturalRatio(L) == 400.0 / 300.0;
  }

  /** `naturalScale * scale`: canvas pixels to wrapper pixels. */
  function RenderingScale(L: Layout, T: Transform): (s: real)
    requires Measured(L)
    ensures T.scale > 0.0 ==> s > 0.0
    ensures T.scale != 0.0 <==> s != 0.0
  {
    NaturalScale(L) * T.scale
  }

  /**
    * A canvas-relative point scaled to wrapper pixels, before rotation and
    * translation: `canvas size * scale * naturalScale * point`.
    */
  function Extent(L: Layout, scale: real, p: Point): (e: Point)
    requires Measured(L)
    ensures p == Point(0.0, 0.0) ==> e == p
    ensures scale == 0.0 ==> e == Point(0.0, 0.0)
  {
    Point(L.canvas.width * (scale * NaturalScale(L)) * p.x, L.canvas.height * (scale * NaturalScale(L)) * p.y)
  }

  /**
    * `composeRelPoint`: the wrapper-box position of a canvas-relative point
    * under the transform `T` (the source's optional overrides are the
    * caller's choice of `T`). Scale into pixels from the padded origin,
    * rotate about that origin, then translate.
    */
  function ComposeRelPoint(L: Layout, T: Transform, t: Trig, p: Point): (r: Point)
    requires Measured(L)
    ensures p == Point(0.0, 0.0) ==> r == Point(L.offset.left + T.translateX, L.offset.top + T.translateY)
  {
    var anchor := Point(L.offset.left, L.offset.top);
    var e := Extent(L, T.scale, p);
    var scaledPoint := Point(L.offset.left + e.x, L.offset.top + e.y);
    var rotatedPoint := RotatePoint(t, scaledPoint, anchor, T.rotate);
    Point(rotatedPoint.x + T.translateX, rotatedPoint.y + T.translateY)
  }

  /** `ComposeRelPoint` is the padded origin plus the rotated extent plus the translate. */
  lemma ComposeRelPointForm(L: Layout, T: Transform, t: Trig, p: Point)
    requires Measured(L)
    ensures var q := RotatePoint(t, Extent(L, T.scale, p), Point(0.0, 0.0), T.rotate);
            ComposeRelPoint(L, T, t, p) == Point(L.offset.left + q.x + T.translateX, L.offset.top + q.y + T.translateY)
  {
    var e := Extent(L, T.scale, p);
    var scaledPoint := Point(L.offset.left + e.x, L.offset.top + e.y);
    assert scaledPoint.x - L.offset.left == e.x - 0.0;
    assert scaledPoint.y - L.offset.top == e.y - 0.0;
  }

  /** `composePoint`: the same for a point in canvas pixels. */
  function ComposePoint(L: Layout, T: Transform, t: Trig, x: real, y: real): (r: Point)
    requires Measured(L)
    ensures x == 0.0 && y == 0.0 ==> r == Point(L.offset.left + T.translateX, L.offset.top + T.translateY)
  {
    var relX := x / L.canvas.width;
    var relY := y / L.canvas.height;
    ComposeRelPoint(L, T, t, Point(relX, relY))
  }

  /**
    * `calcProjectionTranslate`: the translate that puts the canvas-relative
    * point `canvasPosition` on the wrapper-relative point `wrapperPosition`
    * under scale `newScale` and the rotation `virtualRotate`, or the live
    * rotation when that is absent.
    */
  function CalcProjectionTranslate(
    L: Layout, T: Transform, t: Trig, newScale: real,
    wrapperPosition: Point, canvasPosition: Point, virtualRotate: Option<real>): (d: Point)
    requires Measured(L)
    ensures canvasPosition == Point(0.0, 0.0) || newScale == 0.0 ==>
              d == Point(wrapperPosition.x * WrapperInnerWidth(L), wrapperPosition.y * WrapperInnerHeight(L))
  {
    var canvasReal := CanvasReal(L, newScale, canvasPosition);
    var rotated := RotatePoint(t, canvasReal, Point(0.0, 0.0), virtualRotate.GetOr(T.rotate));
    var wrapperRealX := wrapperPosition.x * WrapperInnerWidth(L);
    var wrapperRealY := wrapperPosition.y * WrapperInnerHeight(L);
    Point(wrapperRealX - rotated.x, wrapperRealY - rotated.y)
  }

  /**
    * The anchor's "real" position in `calcProjectionTranslate`: the canvas
    * point times the intrinsic canvas size (canvas size times natural scale)
    * times the new scale, which is its extent.
    */
  function CanvasReal(L: Layout, newScale: real, canvasPosition: Point): (r: Point)
    requires Measured(L)
    ensures r == Extent(L, newScale, canvasPosition)
  {
    var n := NaturalScale(L);
    var canvasIntrinsicWidth := L.canvas.width * n;
    var canvasIntrinsicHeight := L.canvas.height * n;
    ProductOrder(L.canvas.width, n, newScale, canvasPosition.x);
    ProductOrder(L.canvas.height, n, newScale, canvasPosition.y);
    Point(canvasPosition.x * canvasIntrinsicWidth * newScale, canvasPosition.y * canvasIntrinsicHeight * newScale)
  }

  lemma ProductOrder(w: real, n: real, s: real, x: real)
    ensures x * (w * n) * s == w * (s * n) * x
  {
  }

  /** The projection is the wrapper target minus the rotated extent of the anchor. */
  lemma ProjectionForm(
    L: Layout, T: Transform, t: Trig, newScale: real,
    wrapperPosition: Point, canvasPosition: Point, virtualRotate: Option<real>)
    requires Measured(L)
    ensures var q := RotatePoint(t, Extent(L, newScale, canvasPosition), Point(0.0, 0.0), virtualRotate.GetOr(T.rotate));
            (CalcProjectionTranslate(L, T, t, newScale, wrapperPosition, canvasPosition, virtualRotate)
             == Point(wrapperPosition.x * WrapperInnerWidth(L) - q.x, wrapperPosition.y * WrapperInnerHeight(L) - q.y))
  {
    var angle := virtualRotate.GetOr(T.rotate);
    var canvasReal := CanvasReal(L, newScale, canvasPosition);
    var rotated := RotatePoint(t, canvasReal, Point(0.0, 0.0), angle);
    assert rotated == RotatePoint(t, Extent(L, newScale, canvasPosition), Point(0.0, 0.0), angle);
    assert CalcProjectionTranslate(L, T, t, newScale, wrapperPosition, canvasPosition, virtualRotate)
        == Point(wrapperPosition.x * WrapperInnerWidth(L) - rotated.x, wrapperPosition.y * WrapperInnerHeight(L) - rotated.y);
  }

  /**
    * Anchor property of the projection: with the solved translate, the new
    * scale and the rotation it assumed, the canvas point lands on the
    * wrapper point (in wrapper-box coordinates, so offset by the padding).
    */
  lemma ProjectionAnchors(
    L: Layout, T: Transform, t: Trig, newScale: real,
    wrapperPosition: Point, canvasPosition: Point, virtualRotate: Option<real>)
    requires Measured(L)
    ensures var d := CalcProjectionTranslate(L, T, t, newScale, wrapperPosition, canvasPosition, virtualRotate);
            var T' := Transform(d.x, d.y, newScale, virtualRotate.GetOr(T.rotate));
            (ComposeRelPoint(L, T', t, canvasPosition)
             == Point(L.offset.left + wrapperPosition.x * WrapperInnerWidth(L),
                      L.offset.top + wrapperPosition.y * WrapperInnerHeight(L)))
  {
    var d := CalcProjectionTranslate(L, T, t, newScale, wrapperPosition, canvasPosition, virtualRotate);
    var T' := Transform(d.x, d.y, newScale, virtualRotate.GetOr(T.rotate));
    ProjectionForm(L, T, t, newScale, wrapperPosition, canvasPosition, virtualRotate);
    ComposeRelPointForm(L, T', t, canvasPosition);
  }

  /** Centring a canvas that fits exactly: scale 1, both anchors at the middle, translate zero. */
  lemma CenteringExample(t: Trig, T: Transform)
    requires Lawful(t)
    ensures var L := Layout(Offset(0.0, 0.0, 0.0, 0.0), Bounds(0.0, 0.0, 800.0, 600.0), Bounds(0.0, 0.0, 400.0, 300.0));
            CalcProjectionTranslate(L, T, t, 1.0, Point(0.5, 0.5), Point(0.5, 0.5), Some(0.0)) == Point(0.0, 0.0)
  {
    var L := Layout(Offset(0.0, 0.0, 0.0, 0.0), Bounds(0.0, 0.0, 800.0, 600.0), Bounds(0.0, 0.0, 400.0, 300.0));
    NaturalScaleExample();
    ProjectionForm(L, T, t, 1.0, Point(0.5, 0.5), Point(0.5, 0.5), Some(0.0));
    assert Extent(L, 1.0, Point(0.5, 0.5)) == Point(400.0, 300.0);
  }

  /**
    * `getCanvasCoordsRel`: the canvas-relative point at a wrapper-inner
    * position. Undo the translate, rotate back about the inner origin,
    * divide by the rendering scale and by the canvas size.
    */
  function GetCanvasCoordsRel(L: Layout, T: Transform, t: Trig, p: Point): (r: Point)
    requires Measured(L) && T.scale != 0.0
    ensures p == Point(T.translateX, T.translateY) ==> r == Point(0.0, 0.0)
  {
    var untranslatedPoint := Point(p.x - T.translateX, p.y - T.translateY);
    var unrotatedPoint := RotatePoint(t, untranslatedPoint, Point(0.0, 0.0), -T.rotate);
    var unscaledPoint := Point(unrotatedPoint.x / RenderingScale(L, T), unrotatedPoint.y / RenderingScale(L, T));
    Point(unscaledPoint.x / L.canvas.width, unscaledPoint.y / L.canvas.height)
  }

  /** Dividing out both factors of a product of three. */
  lemma DivideOutFactors(e: real, w: real, k: real, x: real)
    requires w != 0.0 && k != 0.0 && e == w * k * x
    ensures e / k / w == x
  {
  }

  /** Multiplying back both factors divided out of a value. */
  lemma MultiplyBackFactors(w: real, k: real, v: real, g: real)
    requires w != 0.0 && k != 0.0 && g == v / k / w
    ensures w * k * g == v
  {
  }

  /** The extent of a point is its canvas size times the rendering scale. */
  lemma ExtentByRenderingScale(L: Layout, T: Transform, p: Point)
    requires Measured(L)
    ensures var e, k := Extent(L, T.scale, p), RenderingScale(L, T);
            e.x == L.canvas.width * k * p.x && e.y == L.canvas.height * k * p.y
  {
  }

  /** `GetCanvasCoordsRel` is the rotated-back, untranslated point divided by the rendering scale and the canvas size. */
  lemma CanvasCoordsForm(L: Layout, T: Transform, t: Trig, p: Point)
    requires Measured(L) && T.scale != 0.0
    ensures var v := RotatePoint(t, Point(p.x - T.translateX, p.y - T.translateY), Point(0.0, 0.0), -T.rotate);
            var k := RenderingScale(L, T);
            GetCanvasCoordsRel(L, T, t, p) == Point(v.x / k / L.canvas.width, v.y / k / L.canvas.height)
  {
  }

  /** Inverse round trip: mapping a composed point back gives the canvas-relative point. */
  lemma CanvasCoordsOfComposed(L: Layout, T: Transform, t: Trig, q: Point)
    requires Lawful(t) && Measured(L) && T.scale != 0.0
    ensures var c := ComposeRelPoint(L, T, t, q);
            GetCanvasCoordsRel(L, T, t, Point(c.x - L.offset.left, c.y - L.offset.top)) == q
  {
    var o := Point(0.0, 0.0);
    var e := Extent(L, T.scale, q);
    var turned := RotatePoint(t, e, o, T.rotate);
    var c := ComposeRelPoint(L, T, t, q);
    var p := Point(c.x - L.offset.left, c.y - L.offset.top);
    assert Point(p.x - T.translateX, p.y - T.translateY) == turned by {
      ComposeRelPointForm(L, T, t, q);
    }
    var v := RotatePoint(t, turned, o, -T.rotate);
    assert v == e by { RotatePointInverse(t, e, o, T.rotate); }
    var k := RenderingScale(L, T);
    CanvasCoordsForm(L, T, t, p);
    ExtentByRenderingScale(L, T, q);
    DivideOutFactors(v.x, L.canvas.width, k, q.x);
    DivideOutFactors(v.y, L.canvas.height, k, q.y);
  }

  /** Forward round trip: composing the canvas point found at an inner position gives that position back. */
  lemma ComposedOfCanvasCoords(L: Layout, T: Transform, t: Trig, p: Point)
    requires Lawful(t) && Measured(L) && T.scale != 0.0
    ensures ComposeRelPoint(L, T, t, GetCanvasCoordsRel(L, T, t, p)) == Point(p.x + L.offset.left, p.y + L.offset.top)
  {
    var o := Point(0.0, 0.0);
    var u := Point(p.x - T.translateX, p.y - T.translateY);
    var v := RotatePoint(t, u, o, -T.rotate);
    var g := GetCanvasCoordsRel(L, T, t, p);
    var k := RenderingScale(L, T);
    CanvasCoordsForm(L, T, t, p);
    assert Extent(L, T.scale, g) == v by {
      ExtentByRenderingScale(L, T, g);
      MultiplyBackFactors(L.canvas.width, k, v.x, g.x);
      MultiplyBackFactors(L.canvas.height, k, v.y, g.y);
    }
    assert RotatePoint(t, v, o, T.rotate) == u by {
      RotatePointInverse(t, u, o, -T.rotate);
      assert -(-T.rotate) == T.rotate;
    }
    ComposeRelPointForm(L, T, t, g);
  }

  /** `clientCoordsToWrapperCoords`: client coordinates relative to the inner origin. */
  function ClientCoordsToWrapperCoords(offset: Offset, wrapper: Bounds, client: Point): (r: Point)
    ensures r.x + WrapperInnerX(offset, wrapper) == client.x
    ensures r.y + WrapperInnerY(offset, wrapper) == client.y
  {
    Point(client.x - WrapperInnerX(offset, wrapper), client.y - WrapperInnerY(offset, wrapper))
  }

  /** `relativeWrapperCoordinatesFromClientCoords`: inner coordinates as fractions of the inner size. */
  function RelativeWrapperCoordinatesFromClientCoords(L: Layout, client: Point): (r: Point)
    requires Measured(L)
    ensures r.x * WrapperInnerWidth(L) == client.x - WrapperInnerX(L.offset, L.wrapper)
    ensures r.y * WrapperInnerHeight(L) == client.y - WrapperInnerY(L.offset, L.wrapper)
  {
    var p := ClientCoordsToWrapperCoords(L.offset, L.wrapper, client);
    Point(p.x / WrapperInnerWidth(L), p.y / WrapperInnerHeight(L))
  }

  /** `normalizeMatrixCoordinates`: the canvas-relative point under a client position. */
  function NormalizeMatrixCoordinates(L: Layout, T: Transform, t: Trig, client: Point): (r: Point)
    requires Measured(L) && T.scale != 0.0
    ensures client == Point(WrapperInnerX(L.offset, L.wrapper) + T.translateX, WrapperInnerY(L.offset, L.wrapper) + T.translateY)
            ==> r == Point(0.0, 0.0)
  {
    var inner := ClientCoordsToWrapperCoords(L.offset, L.wrapper, client);
    GetCanvasCoordsRel(L, T, t, inner)
  }

  /** The point found under a client position composes back to that position, relative to the wrapper's box. */
  lemma NormalizedPointUnderClient(L: Layout, T: Transform, t: Trig, client: Point)
    requires Lawful(t) && Measured(L) && T.scale != 0.0
    ensures ComposeRelPoint(L, T, t, NormalizeMatrixCoordinates(L, T, t, client))
         == Point(client.x - L.wrapper.x, client.y - L.wrapper.y)
  {
    ComposedOfCanvasCoords(L, T, t, ClientCoordsToWrapperCoords(L.offset, L.wrapper, client));
  }

  /** `normalizeClientCoords`: the canvas point, in canvas pixels, under a client position. */
  function NormalizeClientCoords(L: Layout, T: Transform, t: Trig, client: Point): (r: Point)
    requires Measured(L) && T.scale != 0.0
    ensures client == Point(WrapperInnerX(L.offset, L.wrapper) + T.translateX, WrapperInnerY(L.offset, L.wrapper) + T.translateY)
            ==> r == Point(0.0, 0.0)
  {
    var rel := NormalizeMatrixCoordinates(L, T, t, client);
    Point(rel.x * L.canvas.width, rel.y * L.canvas.height)
  }

  /** Composing the canvas pixel found under a client position gives that position back. */
  lemma NormalizedClientComposes(L: Layout, T: Transform, t: Trig, client: Point)
    requires Lawful(t) && Measured(L) && T.scale != 0.0
    ensures var c := NormalizeClientCoords(L, T, t, client);
            ComposePoint(L, T, t, c.x, c.y) == Point(client.x - L.wrapper.x, client.y - L.wrapper.y)
  {
    var rel := NormalizeMatrixCoordinates(L, T, t, client);
    var c := NormalizeClientCoords(L, T, t, client);
    assert Point(c.x / L.canvas.width, c.y / L.canvas.height) == rel by {
      MulDivCancel(rel.x, L.canvas.width);
      MulDivCancel(rel.y, L.canvas.height);
    }
    NormalizedPointUnderClient(L, T, t, client);
  }
}
