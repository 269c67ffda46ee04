/**
  * Geometry and wheel helpers of the transform engine: angle conversion,
  * rotation about a pivot, vectors, clamping, rounding, wheel-device
  * classification and the inverse transform of a measured rectangle.
  */
module Helpers {
  import opened Dom

  /**
    * The host's `Math.cos`, `Math.sin`, `Math.atan2`, `Math.sqrt` and
    * `Math.PI`, passed in as values; `Lawful` states the laws the proofs use.
    */
  datatype Trig = Trig(
    cos: real -> real,
    sin: real -> real,
    atan2: (real, real) -> real,
    sqrt: real -> real,
    pi: real)

  ghost predicate Lawful(t: Trig) {
    && t.pi > 0.0
    && t.cos(0.0) == 1.0
    && t.sin(0.0) == 0.0
    && (forall a: real {:trigger t.cos(Neg(a))} :: t.cos(Neg(a)) == t.cos(a))
    && (forall a: real {:trigger t.sin(Neg(a))} :: t.sin(Neg(a)) == -t.sin(a))
    && (forall a: real {:trigger SquareSum(t, a)} :: SquareSum(t, a) == 1.0)
    && (forall y: real, x: real {:trigger PolarLaw(t, y, x)} :: PolarLaw(t, y, x))
  }

  /**
    * `Math.atan2(y, x)` is the direction of a nonzero vector `(x, y)`: its
    * cosine and sine, scaled by the vector's length, give the vector back.
    */
  ghost predicate PolarLaw(t: Trig, y: real, x: real) {
    (x != 0.0 || y != 0.0) ==>
      && t.cos(t.atan2(y, x)) * t.sqrt(x * x + y * y) == x
      && t.sin(t.atan2(y, x)) * t.sqrt(x * x + y * y) == y
  }

  /**
    * `cos² + sin²` of an angle, named so that the Pythagorean law fires
    * only where a proof asks for it.
    */
  function SquareSum(t: Trig, a: real): real {
    t.cos(a) * t.cos(a) + t.sin(a) * t.sin(a)
  }

  /**
    * Negation, named so that the laws for negated angles fire only where a
    * proof asks for them.
    */
  function Neg(a: real): real { -a }

  function Min(a: real, b: real): real { if a <= b then a else b }

  function Max(a: real, b: real): real { if a >= b then a else b }

  function Abs(a: real): real { if a < 0.0 then -a else a }

  /** `Math.sign` on a number that is not NaN. */
  function Sign(a: real): real { if a < 0.0 then -1.0 else if a > 0.0 then 1.0 else 0.0 }

  /** Degrees to radians; converting back with `RadiansToDegrees` gives the input. */
  function DegreeToRadians(t: Trig, degrees: real): (r: real)
    ensures degrees == 0.0 ==> r == 0.0
    ensures degrees == 180.0 ==> r == t.pi
  {
    (degrees * t.pi) / 180.0
  }

  /** Radians to degrees; converting back with `DegreeToRadians` gives the input. */
  function RadiansToDegrees(t: Trig, radians: real): (d: real)
    requires t.pi != 0.0
    ensures radians == 0.0 ==> d == 0.0
  {
    (radians * 180.0) / t.pi
  }

  /** The two conversions are inverse to each other. */
  lemma DegreesRoundTrip(t: Trig, degrees: real, radians: real)
    requires t.pi != 0.0
    ensures RadiansToDegrees(t, DegreeToRadians(t, degrees)) == degrees
    ensures DegreeToRadians(t, RadiansToDegrees(t, radians)) == radians
  {
    var p := t.pi;
    calc {
      RadiansToDegrees(t, DegreeToRadians(t, degrees));
      ((degrees * p) / 180.0 * 180.0) / p;
      (degrees * p) / p;
      { MulDivCancel(degrees, p); }
      degrees;
    }
    calc {
      DegreeToRadians(t, RadiansToDegrees(t, radians));
      ((radians * 180.0) / p * p) / 180.0;
      { DivMulCancel(radians * 180.0, p); }
      (radians * 180.0) / 180.0;
      radians;
    }
  }

  lemma MulDivCancel(a: real, p: real)
    requires p != 0.0
    ensures (a * p) / p == a
  {
  }

  lemma DivMulCancel(a: real, p: real)
    requires p != 0.0
    ensures a / p * p == a
  {
  }

  /**
    * `Math.min(Math.max(value, min), max)`: inside `[min, max]` when that
    * interval is not empty, and `max` whenever `max < min`.
    */
  function Clamp(value: real, min: real, max: real): (r: real)
    ensures min <= max ==> min <= r <= max
    ensures min <= value <= max ==> r == value
    ensures min <= max && value < min ==> r == min
    ensures value > max ==> r == max
    ensures max < min ==> r == max
  {
    Min(Max(value, min), max)
  }

  /**
    * `Math.atan2` of the vector from `p1` to `p2`: for distinct points,
    * walking from `p1` in that direction for their distance reaches `p2`.
    */
  function AngleBetween(t: Trig, p1: Point, p2: Point): (a: real)
    ensures Lawful(t) && p1 != p2 ==>
              MoveAlongVector(p1, AngleToVector(t, a), t.sqrt(SquaredDistance(p2, p1))) == p2
  {
    var v := VectorBetween(p1, p2);
    WalkAlongAtan2(t, p1, p2);
    t.atan2(v.y, v.x)
  }

  /** The polar law of `atan2` for one nonzero vector `(x, y)`. */
  lemma Polar(t: Trig, y: real, x: real)
    requires Lawful(t) && (x != 0.0 || y != 0.0)
    ensures t.cos(t.atan2(y, x)) * t.sqrt(x * x + y * y) == x
    ensures t.sin(t.atan2(y, x)) * t.sqrt(x * x + y * y) == y
  {
    assert PolarLaw(t, y, x);
  }

  /** The polar law of `atan2`, applied to the vector between two points. */
  lemma WalkAlongAtan2(t: Trig, p1: Point, p2: Point)
    ensures var v := VectorBetween(p1, p2);
            Lawful(t) && p1 != p2 ==>
              MoveAlongVector(p1, AngleToVector(t, t.atan2(v.y, v.x)), t.sqrt(SquaredDistance(p2, p1))) == p2
  {
    var x, y := p2.x - p1.x, p2.y - p1.y;
    if Lawful(t) && p1 != p2 {
      assert x != 0.0 || y != 0.0;
      Polar(t, y, x);
      assert SquaredDistance(p2, p1) == x * x + y * y;
    }
  }

  /** Moving both points by the same vector keeps the angle between them. */
  lemma AngleBetweenTranslated(t: Trig, p1: Point, p2: Point, v: Point)
    ensures AngleBetween(t, MoveAlongVector(p1, v, 1.0), MoveAlongVector(p2, v, 1.0)) == AngleBetween(t, p1, p2)
  {
    var q1, q2 := MoveAlongVector(p1, v, 1.0), MoveAlongVector(p2, v, 1.0);
    assert q2.y - q1.y == p2.y - p1.y && q2.x - q1.x == p2.x - p1.x;
  }

  function SquaredDistance(p: Point, q: Point): real {
    (p.x - q.x) * (p.x - q.x) + (p.y - q.y) * (p.y - q.y)
  }

  /**
    * Rotation of `point` about `center` by `angle` radians: the rotated
    * offset from the centre, added back to the centre.
    */
  function RotatePoint(t: Trig, point: Point, center: Point, angle: real): (r: Point)
    ensures point == center ==> r == center
    ensures Lawful(t) && angle == 0.0 ==> r == point
  {
    var cx, cy := center.x, center.y;
    Point(
      t.cos(angle) * (point.x - cx) - t.sin(angle) * (point.y - cy) + cx,
      t.sin(angle) * (point.x - cx) + t.cos(angle) * (point.y - cy) + cy)
  }

  /** The unit vector at `angle`. */
  function AngleToVector(t: Trig, angle: real): (v: Point)
    ensures Lawful(t) ==> v.x * v.x + v.y * v.y == 1.0
    ensures Lawful(t) && angle == 0.0 ==> v == Point(1.0, 0.0)
  {
    assert Lawful(t) ==> SquareSum(t, angle) == 1.0;
    Point(t.cos(angle), t.sin(angle))
  }

  /** The vector from `p1` to `p2`. */
  function VectorBetween(p1: Point, p2: Point): (v: Point)
    ensures p1 == p2 <==> v == Point(0.0, 0.0)
  {
    Point(p2.x - p1.x, p2.y - p1.y)
  }

  /** Moving once along the vector between two points leads from the first to the second. */
  lemma VectorBetweenCarries(p1: Point, p2: Point)
    ensures MoveAlongVector(p1, VectorBetween(p1, p2), 1.0) == p2
  {
  }

  /** A rotation about a centre is the rotated offset from the centre, added back to the centre. */
  lemma RotatePointByVector(t: Trig, point: Point, center: Point, angle: real)
    ensures var v := RotateVector(t, VectorBetween(center, point), angle);
            RotatePoint(t, point, center, angle) == Point(center.x + v.x, center.y + v.y)
  {
  }

  /** Rotation of a vector about the origin. */
  function RotateVector(t: Trig, vector: Point, angle: real): (r: Point)
    ensures vector == Point(0.0, 0.0) ==> r == vector
    ensures Lawful(t) && angle == 0.0 ==> r == vector
  {
    Point(vector.x * t.cos(angle) - vector.y * t.sin(angle),
          vector.x * t.sin(angle) + vector.y * t.cos(angle))
  }

  /** Rotating a vector is rotating the point it leads to about the origin. */
  lemma RotateVectorAboutOrigin(t: Trig, v: Point, angle: real)
    ensures RotateVector(t, v, angle) == RotatePoint(t, v, Point(0.0, 0.0), angle)
  {
    assert t.cos(angle) * (v.x - 0.0) == v.x * t.cos(angle) && t.sin(angle) * (v.y - 0.0) == v.y * t.sin(angle);
    assert t.sin(angle) * (v.x - 0.0) == v.x * t.sin(angle) && t.cos(angle) * (v.y - 0.0) == v.y * t.cos(angle);
  }

  /** The point reached from `start` after `length` times `vector`. */
  function MoveAlongVector(start: Point, vector: Point, length: real): (r: Point)
    ensures length == 0.0 ==> r == start
    ensures vector == Point(0.0, 0.0) ==> r == start
  {
    Point(start.x + vector.x * length, start.y + vector.y * length)
  }

  lemma {:induction false} MoveAlongVectorAdds(p: Point, v: Point, a: real, b: real)
    ensures MoveAlongVector(MoveAlongVector(p, v, a), v, b) == MoveAlongVector(p, v, a + b)
  {
    assert v.x * a + v.x * b == v.x * (a + b);
    assert v.y * a + v.y * b == v.y * (a + b);
  }

  /** A rotation keeps the length of a vector. */
  lemma RotateVectorKeepsLength(t: Trig, v: Point, a: real)
    requires Lawful(t)
    ensures var r := RotateVector(t, v, a);
            r.x * r.x + r.y * r.y == v.x * v.x + v.y * v.y
  {
    var c, s := t.cos(a), t.sin(a);
    var r := RotateVector(t, v, a);
    calc {
      r.x * r.x + r.y * r.y;
      (v.x * c - v.y * s) * (v.x * c - v.y * s) + (v.x * s + v.y * c) * (v.x * s + v.y * c);
      { SumOfSquaresExpansion(v.x, v.y, c, s); }
      (c * c + s * s) * (v.x * v.x + v.y * v.y);
      { assert SquareSum(t, a) == 1.0; }
      v.x * v.x + v.y * v.y;
    }
  }

  lemma SumOfSquaresExpansion(x: real, y: real, c: real, s: real)
    ensures (x * c - y * s) * (x * c - y * s) + (x * s + y * c) * (x * s + y * c)
         == (c * c + s * s) * (x * x + y * y)
  {
  }

  /** Rotating about `center` keeps the distance to `center`. */
  lemma RotatePointKeepsDistance(t: Trig, p: Point, center: Point, a: real)
    requires Lawful(t)
    ensures SquaredDistance(RotatePoint(t, p, center, a), center) == SquaredDistance(p, center)
  {
    var v := VectorBetween(center, p);
    RotatePointByVector(t, p, center, a);
    RotateVectorKeepsLength(t, v, a);
  }

  /** Rotating by `-a` about the same centre undoes a rotation by `a`. */
  lemma RotatePointInverse(t: Trig, p: Point, center: Point, a: real)
    requires Lawful(t)
    ensures RotatePoint(t, RotatePoint(t, p, center, a), center, -a) == p
  {
    var c, s := t.cos(a), t.sin(a);
    assert t.cos(-a) == c && t.sin(-a) == -s by { assert t.cos(Neg(a)) == c && t.sin(Neg(a)) == -s; }
    assert c * c + s * s == 1.0 by { assert SquareSum(t, a) == 1.0; }
    var dx, dy := p.x - center.x, p.y - center.y;
    var q := RotatePoint(t, p, center, a);
    assert q.x - center.x == c * dx - s * dy;
    assert q.y - center.y == s * dx + c * dy;
    var r := RotatePoint(t, q, center, -a);
    calc {
      r.x - center.x;
      c * (c * dx - s * dy) - (-s) * (s * dx + c * dy);
      (c * c + s * s) * dx;
      dx;
    }
    calc {
      r.y - center.y;
      (-s) * (c * dx - s * dy) + c * (s * dx + c * dy);
      (c * c + s * s) * dy;
      dy;
    }
  }

  predicate IsWhole(v: real) { v.Floor as real == v }

  /** `10^decimals`. */
  function Pow10(decimals: nat): (f: real)
    ensures f >= 1.0
  {
    if decimals == 0 then 1.0 else 10.0 * Pow10(decimals - 1)
  }

  /**
    * `Math.round(value * 10^decimals) / 10^decimals`, where `Math.round`
    * rounds halves up: within half a unit of the last decimal, and exact on
    * values that already have at most `decimals` decimals.
    */
  function Round(value: real, decimals: nat): (r: real)
    ensures value - 0.5 / Pow10(decimals) < r <= value + 0.5 / Pow10(decimals)
  {
    RoundByFacts(value, Pow10(decimals));
    RoundBy(value, Pow10(decimals))
  }

  /** A value with at most `decimals` decimals is its own rounding. */
  lemma RoundKeepsExact(value: real, decimals: nat)
    requires IsWhole(value * Pow10(decimals))
    ensures Round(value, decimals) == value
  {
    RoundByFacts(value, Pow10(decimals));
  }

  /** `Math.round(value * f) / f` for a factor `f >= 1`. */
  function RoundBy(value: real, f: real): (r: real)
    requires f >= 1.0
    ensures value - 0.5 / f < r <= value + 0.5 / f
    ensures IsWhole(value * f) ==> r == value
  {
    var n := (value * f + 0.5).Floor as real;
    RoundBounds(value, f, n);
    n / f
  }

  lemma RoundByFacts(value: real, f: real)
    requires f >= 1.0
    ensures value - 0.5 / f < RoundBy(value, f) <= value + 0.5 / f
    ensures IsWhole(value * f) ==> RoundBy(value, f) == value
  {
  }

  lemma RoundBounds(value: real, f: real, n: real)
    requires f >= 1.0
    requires n == (value * f + 0.5).Floor as real
    ensures value - 0.5 / f < n / f <= value + 0.5 / f
    ensures IsWhole(value * f) ==> n / f == value
  {
    var y := value * f;
    FloorNear(y, n);
    var d := n - y;
    ShiftDiv(value, f, d);
    DivBound(d, f);
  }

  lemma FloorNear(y: real, n: real)
    requires n == (y + 0.5).Floor as real
    ensures y - 0.5 < n <= y + 0.5
    ensures y.Floor as real == y ==> n == y
  {
    if y.Floor as real == y {
      assert (y + 0.5).Floor == y.Floor;
    }
  }

  lemma ShiftDiv(value: real, f: real, d: real)
    requires f >= 1.0
    ensures (value * f + d) / f == value + d / f
  {
  }

  lemma DivBound(d: real, f: real)
    requires f >= 1.0 && -0.5 < d <= 0.5
    ensures -0.5 / f < d / f <= 0.5 / f
  {
  }

  /** Rounding to four decimals moves a value by at most 0.00005. */
  lemma RoundToFourNear(v: real)
    ensures Abs(Round(v, 4) - v) <= 0.00005
  {
    assert Pow10(4) == 10000.0 by {
      assert Pow10(1) == 10.0;
      assert Pow10(2) == 100.0;
      assert Pow10(3) == 1000.0;
    }
  }

  /**
    * The trackpad/mouse-wheel guess: a present, non-zero `wheelDeltaY`
    * decides alone (trackpad iff it is `-3 * deltaY`); otherwise the event
    * is a trackpad's iff it reports pixel deltas.
    */
  function DetectTrackpad(event: WheelEvent): (isTrackpad: bool)
    ensures event.wheelDeltaY.Some? && event.wheelDeltaY.value != 0.0 ==>
              (isTrackpad <==> event.wheelDeltaY.value == event.deltaY * -3.0)
    ensures (event.wheelDeltaY.None? || event.wheelDeltaY.value == 0.0) ==>
              (isTrackpad <==> event.deltaMode == 0)
  {
    if event.wheelDeltaY.Some? && event.wheelDeltaY.value != 0.0 then
      event.wheelDeltaY.value == event.deltaY * -3.0
    else
      event.deltaMode == 0
  }

  /**
    * JavaScript's `n % m === 0`: the remainder truncates towards zero, so it
    * is zero exactly when `n / m` is a whole number; `n % 0` is NaN.
    */
  predicate RemainderIsZero(n: real, m: real) {
    m != 0.0 && IsWhole(n / m)
  }

  /**
    * `n / m` for the first `m` of `multiples` that divides `n` exactly,
    * and 1 when none does.
    */
  function IsMultipleOf(n: real, multiples: seq<real>): (r: real)
    ensures (forall i :: 0 <= i < |multiples| ==> !RemainderIsZero(n, multiples[i])) ==> r == 1.0
    ensures forall i :: 0 <= i < |multiples| && RemainderIsZero(n, multiples[i]) &&
                        (forall j :: 0 <= j < i ==> !RemainderIsZero(n, multiples[j])) ==>
                        r == n / multiples[i]
    decreases |multiples|
  {
    if multiples == [] then 1.0
    else if RemainderIsZero(n, multiples[0]) then n / multiples[0]
    else IsMultipleOf(n, multiples[1..])
  }

  /** Wheel-notch multiples: 120 and 200 are one and two notches of size 120 and 100. */
  lemma MouseNotchMultiples()
    ensures IsMultipleOf(120.0, [120.0, 100.0]) == 1.0
    ensures IsMultipleOf(-120.0, [120.0, 100.0]) == -1.0
    ensures IsMultipleOf(200.0, [120.0, 100.0]) == 2.0
    ensures IsMultipleOf(-200.0, [120.0, 100.0]) == -2.0
  {
    assert RemainderIsZero(120.0, 120.0);
    assert RemainderIsZero(-120.0, 120.0) by { assert -120.0 / 120.0 == -1.0; }
    assert !RemainderIsZero(200.0, 120.0) by { assert (200.0 / 120.0).Floor == 1; }
    assert !RemainderIsZero(-200.0, 120.0) by { assert (-200.0 / 120.0).Floor == -2; }
    assert RemainderIsZero(200.0, 100.0);
    assert RemainderIsZero(-200.0, 100.0) by { assert -200.0 / 100.0 == -2.0; }
  }

  /**
    * The natural rectangle a translate, rotate and scale turn into the
    * reported one: the top-left corner is scaled, rotated about the origin
    * and translated; width and height are scaled.
    */
  function TransformRect(t: Trig, natural: Bounds, tx: real, ty: real, scale: real, rotate: real): (r: Bounds)
    ensures natural.width >= 0.0 && scale >= 0.0 ==> r.width >= 0.0
    ensures natural.height >= 0.0 && scale >= 0.0 ==> r.height >= 0.0
    ensures Lawful(t) && rotate == 0.0 ==> r.x == tx + scale * natural.x && r.y == ty + scale * natural.y
  {
    var corner := RotatePoint(t, Point(natural.x * scale, natural.y * scale), Point(0.0, 0.0), rotate);
    Bounds(corner.x + tx, corner.y + ty, natural.width * scale, natural.height * scale)
  }

  /**
    * The natural rectangle recovered from a measured one: undo the
    * translation, then the rotation, then the scale, and round every output
    * to four decimals.
    */
  function GetUntransformedRect(t: Trig, rect: Bounds, tx: real, ty: real, scale: real, rotate: real): (r: Bounds)
    requires scale != 0.0
    ensures r.width == Round(rect.width / scale, 4) && r.height == Round(rect.height / scale, 4)
  {
    var unrotated := InverseRotation(t, rect.Left() - tx, rect.Top() - ty, rotate);
    var width := rect.width / scale;
    var height := rect.height / scale;
    Bounds(Round(unrotated.x / scale, 4), Round(unrotated.y / scale, 4), Round(width, 4), Round(height, 4))
  }

  /** The rotation by `-rotate` that `GetUntransformedRect` applies to the translated corner. */
  function InverseRotation(t: Trig, x: real, y: real, rotate: real): (p: Point)
    ensures p == RotatePoint(t, Point(x, y), Point(0.0, 0.0), -rotate)
  {
    var cos := t.cos(-rotate);
    var sin := t.sin(-rotate);
    Point(x * cos - y * sin, x * sin + y * cos)
  }

  /** Without rotation the corner is only translated back and unscaled. */
  lemma UntransformedUnrotated(t: Trig, rect: Bounds, tx: real, ty: real, scale: real)
    requires Lawful(t) && scale != 0.0
    ensures var r := GetUntransformedRect(t, rect, tx, ty, scale, 0.0);
            r.x == Round((rect.Left() - tx) / scale, 4) && r.y == Round((rect.Top() - ty) / scale, 4)
  {
    assert -0.0 == 0.0;
    assert InverseRotation(t, rect.Left() - tx, rect.Top() - ty, 0.0) == Point(rect.Left() - tx, rect.Top() - ty);
  }

  /**
    * Inverting a measured rectangle recovers the natural one up to the
    * rounding to four decimals.
    */
  lemma UntransformedRectRecovers(t: Trig, natural: Bounds, tx: real, ty: real, scale: real, rotate: real)
    requires Lawful(t)
    requires scale > 0.0 && natural.width >= 0.0 && natural.height >= 0.0
    ensures var r := GetUntransformedRect(t, TransformRect(t, natural, tx, ty, scale, rotate), tx, ty, scale, rotate);
            && Abs(r.x - natural.x) <= 0.00005 && Abs(r.y - natural.y) <= 0.00005
            && Abs(r.width - natural.width) <= 0.00005 && Abs(r.height - natural.height) <= 0.00005
  {
    UntransformedIsRounded(t, natural, tx, ty, scale, rotate);
    RoundToFourNear(natural.x);
    RoundToFourNear(natural.y);
    RoundToFourNear(natural.width);
    RoundToFourNear(natural.height);
  }

  lemma UntransformedIsRounded(t: Trig, natural: Bounds, tx: real, ty: real, scale: real, rotate: real)
    requires Lawful(t)
    requires scale > 0.0 && natural.width >= 0.0 && natural.height >= 0.0
    ensures GetUntransformedRect(t, TransformRect(t, natural, tx, ty, scale, rotate), tx, ty, scale, rotate)
         == Bounds(Round(natural.x, 4), Round(natural.y, 4), Round(natural.width, 4), Round(natural.height, 4))
  {
    var measured := TransformRect(t, natural, tx, ty, scale, rotate);
    CornerUnscales(t, natural, tx, ty, scale, rotate);
    SizeUnscales(t, natural, tx, ty, scale, rotate);
    UntransformedFields(t, measured, tx, ty, scale, rotate, natural);
  }

  /** Undoing the translation, the rotation and the scale of a transformed rectangle gives back its natural corner. */
  lemma CornerUnscales(t: Trig, natural: Bounds, tx: real, ty: real, scale: real, rotate: real)
    requires Lawful(t)
    requires scale > 0.0 && natural.width >= 0.0 && natural.height >= 0.0
    ensures var measured := TransformRect(t, natural, tx, ty, scale, rotate);
            var unrotated := InverseRotation(t, measured.Left() - tx, measured.Top() - ty, rotate);
            unrotated.x / scale == natural.x && unrotated.y / scale == natural.y
  {
    CornerRecovered(t, natural, tx, ty, scale, rotate);
    var measured := TransformRect(t, natural, tx, ty, scale, rotate);
    UnscalePoint(natural.x, natural.y, scale, InverseRotation(t, measured.Left() - tx, measured.Top() - ty, rotate));
  }

  /** Unscaling the size of a transformed rectangle gives back its natural size. */
  lemma SizeUnscales(t: Trig, natural: Bounds, tx: real, ty: real, scale: real, rotate: real)
    requires scale > 0.0
    ensures var measured := TransformRect(t, natural, tx, ty, scale, rotate);
            measured.width / scale == natural.width && measured.height / scale == natural.height
  {
    var measured := TransformRect(t, natural, tx, ty, scale, rotate);
    UnscalePoint(natural.width, natural.height, scale, Point(measured.width, measured.height));
  }

  lemma UnscalePoint(x: real, y: real, scale: real, p: Point)
    requires scale > 0.0 && p == Point(x * scale, y * scale)
    ensures p.x / scale == x && p.y / scale == y
  {
    MulDivCancel(x, scale);
    MulDivCancel(y, scale);
  }

  /** Undoing the translation and the rotation of a transformed rectangle gives its scaled corner. */
  lemma CornerRecovered(t: Trig, natural: Bounds, tx: real, ty: real, scale: real, rotate: real)
    requires Lawful(t)
    requires scale > 0.0 && natural.width >= 0.0 && natural.height >= 0.0
    ensures var measured := TransformRect(t, natural, tx, ty, scale, rotate);
            InverseRotation(t, measured.Left() - tx, measured.Top() - ty, rotate) == Point(natural.x * scale, natural.y * scale)
  {
    var corner := Point(natural.x * scale, natural.y * scale);
    var turned := RotatePoint(t, corner, Point(0.0, 0.0), rotate);
    var measured := TransformRect(t, natural, tx, ty, scale, rotate);
    assert measured.width >= 0.0 && measured.height >= 0.0;
    assert measured.Left() - tx == turned.x && measured.Top() - ty == turned.y;
    InverseOfRotation(t, corner, rotate);
  }

  lemma InverseOfRotation(t: Trig, corner: Point, rotate: real)
    requires Lawful(t)
    ensures var turned := RotatePoint(t, corner, Point(0.0, 0.0), rotate);
            InverseRotation(t, turned.x, turned.y, rotate) == corner
  {
    RotatePointInverse(t, corner, Point(0.0, 0.0), rotate);
  }

  lemma UntransformedFields(t: Trig, rect: Bounds, tx: real, ty: real, scale: real, rotate: real, natural: Bounds)
    requires scale != 0.0
    requires InverseRotation(t, rect.Left() - tx, rect.Top() - ty, rotate).x / scale == natural.x
    requires InverseRotation(t, rect.Left() - tx, rect.Top() - ty, rotate).y / scale == natural.y
    requires rect.width / scale == natural.width && rect.height / scale == natural.height
    ensures GetUntransformedRect(t, rect, tx, ty, scale, rotate)
         == Bounds(Round(natural.x, 4), Round(natural.y, 4), Round(natural.width, 4), Round(natural.height, 4))
  {
  }

}
