/** The rotary knob of the drum machine: its angular sweep, the linear
    conversion of a logical value into that sweep, the quadrant rule and
    clamp that turn a pointer position into an angle, and the drag session
    that stores the angle (with its tie-break at the start of the sweep).

    Angles are degrees, `real` stands for the JavaScript `number` (its
    non-finite values are outside the model), and the arctangent of the
    pointer offset is taken as a given value `atanDeg`. */
module KnobComponent {

  datatype Option<T> = None | Some(value: T)

  /** `Math.min` and `Math.max` on finite numbers. */
  function Min(a: real, b: real): real { if a <= b then a else b }
  function Max(a: real, b: real): real { if a >= b then a else b }

  /** The part of the circle the knob may turn through. */
  datatype Sweep = Sweep(startAngle: real, endAngle: real)

  /** The sweep of a knob configured with `degrees`: centred in the circle,
      so that it is symmetric about 180 (straight up, the top of the knob
      graphic; 0 and 360 point straight down). */
  function SweepOf(degrees: real): (s: Sweep)
    ensures s.endAngle - s.startAngle == degrees
    ensures s.startAngle + s.endAngle == 360.0
    ensures 0.0 < degrees <= 360.0 ==> 0.0 <= s.startAngle < s.endAngle <= 360.0
  {
    var startAngle := (360.0 - degrees) / 2.0;
    Sweep(startAngle, startAngle + degrees)
  }

  /** Linear conversion of `oldValue` from `[oldMin, oldMax]` to
      `[newMin, newMax]`, without clamping. An empty old range divides by
      zero, which gives a non-finite number in the source: `None` here. */
  function ConvertRange(oldMin: real, oldMax: real, newMin: real, newMax: real, oldValue: real): (r: Option<real>)
    ensures r.Some? <==> oldMin != oldMax
  {
    if oldMax - oldMin == 0.0 then None
    else Some((oldValue - oldMin) * (newMax - newMin) / (oldMax - oldMin) + newMin)
  }

  /** Real-arithmetic steps the conversion lemmas rest on. */
  lemma MulLeq(a: real, b: real, c: real)
    requires a <= b && c >= 0.0
    ensures a * c <= b * c
  {
  }

  lemma DivUnit(n: real, d: real)
    requires 0.0 <= n <= d && d > 0.0
    ensures 0.0 <= n / d <= 1.0
  {
    var t := n / d;
    assert t * d == n;
    if t > 1.0 { MulLeq(1.0, t, d); }
    if t < 0.0 { MulLeq(t, 0.0, d); }
  }

  lemma ScaleUnit(t: real, e: real)
    requires 0.0 <= t <= 1.0 && e >= 0.0
    ensures 0.0 <= t * e <= e
  {
    MulLeq(0.0, t, e);
    MulLeq(t, 1.0, e);
  }

  lemma DivMul(n: real, d: real, m: real)
    requires d != 0.0
    ensures n * m / d == (n / d) * m
  {
  }

  /** Scaling `x` by `e / d` and then by `d / e` gives `x` back. */
  lemma ScaleUndo(x: real, d: real, e: real)
    requires d != 0.0 && e != 0.0
    ensures (x * e / d) * d / e == x
  {
    DivMul(x, d, e);
    var t := x / d;
    assert t * d == x;
    DivMul(t * e, e, d);
    assert (t * e) / e == t;
  }

  /** `x`, which is `n` scaled by `e / d`, stays within `[0, e]` when `n`
      is within `[0, d]`. The product is passed in as `x` so that callers
      reason about it as one quantity. */
  lemma ScaledWithin(n: real, d: real, e: real, x: real)
    requires 0.0 <= n <= d && d > 0.0 && e >= 0.0
    requires x == n * e / d
    ensures 0.0 <= x <= e
  {
    DivUnit(n, d);
    DivMul(n, d, e);
    ScaleUnit(n / d, e);
  }

  /** The arithmetic of ConvertRangeWithin, on the conversion's own terms. */
  lemma WithinArith(v: real, a0: real, a1: real, b0: real, b1: real)
    requires a0 < a1 && b0 <= b1 && a0 <= v <= a1
    ensures b0 <= (v - a0) * (b1 - b0) / (a1 - a0) + b0 <= b1
  {
    ScaledWithin(v - a0, a1 - a0, b1 - b0, (v - a0) * (b1 - b0) / (a1 - a0));
  }

  /** The arithmetic of ConvertRangeInverse, on the conversion's own terms. */
  lemma InverseArith(v: real, a0: real, a1: real, b0: real, b1: real)
    requires a0 != a1 && b0 != b1
    ensures ((v - a0) * (b1 - b0) / (a1 - a0) + b0 - b0) * (a1 - a0) / (b1 - b0) + a0 == v
  {
    ScaleUndo(v - a0, a1 - a0, b1 - b0);
    var p := (v - a0) * (b1 - b0) / (a1 - a0);
    assert p + b0 - b0 == p;
  }

  lemma MulLt(a: real, b: real, c: real)
    requires a < b && c > 0.0
    ensures a * c < b * c
  {
  }

  /** `x`, which is `n` scaled by `e / d` with `d` and `e` positive, is
      negative when `n` is and exceeds `e` when `n` exceeds `d`. */
  lemma ScaledOutside(n: real, d: real, e: real, x: real)
    requires d > 0.0 && e > 0.0
    requires x == n * e / d
    ensures n < 0.0 ==> x < 0.0
    ensures n > d ==> x > e
  {
    DivMul(n, d, e);
    var t := n / d;
    assert t * d == n;
    if n < 0.0 {
      if t >= 0.0 { MulLeq(0.0, t, d); }
      MulLt(t, 0.0, e);
    }
    if n > d {
      if t <= 1.0 { MulLeq(t, 1.0, d); }
      MulLt(1.0, t, e);
    }
  }

  /** The arithmetic of ConvertRangeOutside, on the conversion's own terms. */
  lemma OutsideArith(v: real, a0: real, a1: real, b0: real, b1: real)
    requires a0 < a1 && b0 < b1
    ensures v < a0 ==> (v - a0) * (b1 - b0) / (a1 - a0) + b0 < b0
    ensures v > a1 ==> (v - a0) * (b1 - b0) / (a1 - a0) + b0 > b1
  {
    ScaledOutside(v - a0, a1 - a0, b1 - b0, (v - a0) * (b1 - b0) / (a1 - a0));
  }

  /** The arithmetic of ConvertRangeStrict, on the conversion's own terms. */
  lemma StrictArith(v: real, w: real, a0: real, a1: real, b0: real, b1: real)
    requires a0 < a1 && b0 < b1 && v < w
    ensures (v - a0) * (b1 - b0) / (a1 - a0) + b0 < (w - a0) * (b1 - b0) / (a1 - a0) + b0
  {
    var k := (b1 - b0) / (a1 - a0);
    DivMul(v - a0, a1 - a0, b1 - b0);
    DivMul(w - a0, a1 - a0, b1 - b0);
    assert k > 0.0;
    MulLt(v - a0, w - a0, k);
  }

  /** The two ends of the old range land on the two ends of the new one. */
  lemma ConvertRangeEndpoints(oldMin: real, oldMax: real, newMin: real, newMax: real)
    requires oldMin != oldMax
    ensures ConvertRange(oldMin, oldMax, newMin, newMax, oldMin) == Some(newMin)
    ensures ConvertRange(oldMin, oldMax, newMin, newMax, oldMax) == Some(newMax)
  {
    var w := oldMax - oldMin;
    assert (oldMax - oldMin) * (newMax - newMin) / w == newMax - newMin;
  }

  /** A value inside an increasing old range lands inside the new range. */
  lemma ConvertRangeWithin(oldMin: real, oldMax: real, newMin: real, newMax: real, oldValue: real)
    requires oldMin < oldMax && newMin <= newMax
    requires oldMin <= oldValue <= oldMax
    ensures newMin <= ConvertRange(oldMin, oldMax, newMin, newMax, oldValue).value <= newMax
  {
    WithinArith(oldValue, oldMin, oldMax, newMin, newMax);
  }

  /** Between increasing ranges the conversion never reverses the order of
      two values, whether or not they lie inside the old range. */
  lemma ConvertRangeMonotone(oldMin: real, oldMax: real, newMin: real, newMax: real, v: real, w: real)
    requires oldMin < oldMax && newMin <= newMax
    requires v <= w
    ensures ConvertRange(oldMin, oldMax, newMin, newMax, v).value
         <= ConvertRange(oldMin, oldMax, newMin, newMax, w).value
  {
    var k := (newMax - newMin) / (oldMax - oldMin);
    assert k >= 0.0;
    assert (v - oldMin) * (newMax - newMin) / (oldMax - oldMin) == (v - oldMin) * k;
    assert (w - oldMin) * (newMax - newMin) / (oldMax - oldMin) == (w - oldMin) * k;
    assert (v - oldMin) * k <= (w - oldMin) * k;
  }

  /** Between ranges of positive width the conversion is strictly
      increasing, so distinct values never collapse onto one angle. */
  lemma ConvertRangeStrict(oldMin: real, oldMax: real, newMin: real, newMax: real, v: real, w: real)
    requires oldMin < oldMax && newMin < newMax
    requires v < w
    ensures ConvertRange(oldMin, oldMax, newMin, newMax, v).value
          < ConvertRange(oldMin, oldMax, newMin, newMax, w).value
  {
    StrictArith(v, w, oldMin, oldMax, newMin, newMax);
  }

  /** The conversion does not clamp: a value below the old range lands
      below the new range, and a value above it lands above. */
  lemma ConvertRangeOutside(oldMin: real, oldMax: real, newMin: real, newMax: real, v: real)
    requires oldMin < oldMax && newMin < newMax
    ensures v < oldMin ==> ConvertRange(oldMin, oldMax, newMin, newMax, v).value < newMin
    ensures v > oldMax ==> ConvertRange(oldMin, oldMax, newMin, newMax, v).value > newMax
  {
    OutsideArith(v, oldMin, oldMax, newMin, newMax);
  }

  /** Converting back from the new range to the old one gives the original
      value: an angle read off the knob determines the value it came from. */
  lemma ConvertRangeInverse(oldMin: real, oldMax: real, newMin: real, newMax: real, v: real)
    requires oldMin != oldMax && newMin != newMax
    ensures ConvertRange(newMin, newMax, oldMin, oldMax,
                         ConvertRange(oldMin, oldMax, newMin, newMax, v).value) == Some(v)
  {
    InverseArith(v, oldMin, oldMax, newMin, newMax);
  }

  /** The knob's first angle: the configured value converted into the sweep
      and floored. It is a whole number at most one degree below the
      converted value, and it is not clamped into the sweep. */
  function InitialDeg(degrees: real, min: real, max: real, value: real): (r: Option<real>)
    ensures r.Some? <==> min != max
    ensures r.Some? ==> r.value == r.value.Floor as real
    ensures r.Some? ==> var s := SweepOf(degrees);
      var exact := ConvertRange(min, max, s.startAngle, s.endAngle, value).value;
      r.value <= exact < r.value + 1.0
  {
    var s := SweepOf(degrees);
    match ConvertRange(min, max, s.startAngle, s.endAngle, value)
    case None => None
    case Some(a) => Some(a.Floor as real)
  }

  /** The one knob on the page (180 degrees, values 1 to 100, initial value
      0) starts two degrees before its own sweep: at 88, while the sweep
      starts at 90, because the value 0 lies below the range. */
  lemma PageKnobStartsBelowSweep()
    ensures SweepOf(180.0) == Sweep(90.0, 270.0)
    ensures InitialDeg(180.0, 1.0, 100.0, 0.0) == Some(88.0)
    ensures InitialDeg(180.0, 1.0, 100.0, 0.0).value < SweepOf(180.0).startAngle
  {
    var exact := ConvertRange(1.0, 100.0, 90.0, 270.0, 0.0).value;
    assert exact == 90.0 - 180.0 / 99.0;
    assert 88.0 <= exact < 89.0;
  }

  /** On the same knob the middle value 50 is not the middle of the sweep
      (180) because the values start at 1: it lands at 179 after flooring. */
  lemma PageKnobValueFifty()
    ensures InitialDeg(180.0, 1.0, 100.0, 50.0) == Some(179.0)
  {
    var exact := ConvertRange(1.0, 100.0, 90.0, 270.0, 50.0).value;
    assert exact == 49.0 * 180.0 / 99.0 + 90.0;
    assert 179.0 <= exact < 180.0;
  }

  /** The degrees added to the arctangent, chosen by the quadrant test of
      the source on the pointer offset `(x, y)`. */
  function QuadrantOffset(x: real, y: real): (r: real)
    ensures r == (if x < 0.0 then 90.0 else 270.0)
  {
    if (x < 0.0 && y >= 0.0) || (x < 0.0 && y < 0.0) then 90.0 else 270.0
  }

  /** The unclamped pointer angle: the arctangent (in degrees) plus the
      quadrant offset. */
  function AdjustedAngle(x: real, y: real, atanDeg: real): (r: real)
    ensures x < 0.0 ==> r == atanDeg + 90.0
    ensures x >= 0.0 ==> r == atanDeg + 270.0
  {
    atanDeg + QuadrantOffset(x, y)
  }

  /** With an arctangent in its range [-90, 90], a pointer left of the
      centre gives an angle in the lower half [0, 180] and any other pointer
      (including one straight above or below) one in [180, 360]. */
  lemma AdjustedAngleHalves(x: real, y: real, atanDeg: real)
    requires -90.0 <= atanDeg <= 90.0
    ensures x < 0.0 ==> 0.0 <= AdjustedAngle(x, y, atanDeg) <= 180.0
    ensures x >= 0.0 ==> 180.0 <= AdjustedAngle(x, y, atanDeg) <= 360.0
  {
  }

  /** The pointer angle clamped into the sweep. */
  function GetDeg(s: Sweep, x: real, y: real, atanDeg: real): (r: real)
    ensures s.startAngle <= s.endAngle ==> s.startAngle <= r <= s.endAngle
    ensures s.startAngle <= AdjustedAngle(x, y, atanDeg) <= s.endAngle ==> r == AdjustedAngle(x, y, atanDeg)
    ensures s.startAngle < s.endAngle ==> (r == s.startAngle <==> AdjustedAngle(x, y, atanDeg) <= s.startAngle)
    ensures s.startAngle < s.endAngle ==> (r == s.endAngle <==> AdjustedAngle(x, y, atanDeg) >= s.endAngle)
    ensures s.startAngle <= s.endAngle && AdjustedAngle(x, y, atanDeg) <= s.startAngle ==> r == s.startAngle
    ensures s.startAngle <= s.endAngle && AdjustedAngle(x, y, atanDeg) >= s.endAngle ==> r == s.endAngle
  {
    Min(Max(s.startAngle, AdjustedAngle(x, y, atanDeg)), s.endAngle)
  }

  /** The discontinuity at the vertical through the centre, for a centred
      sweep. Straight below the centre (`x == 0`, `y > 0`; the arctangent
      of +Infinity is 90) the offset is 270, so the knob jumps to the end
      of its sweep. A pointer left of the centre whose arctangent is at
      most `startAngle - 90` (for a sweep narrower than the full circle,
      every pointer close enough to the vertical below the centre, where
      the arctangent tends to -90) clamps to the start. Straight above the
      centre (arctangent -90) the angle is 180, the middle of the sweep. */
  lemma VerticalPointer(degrees: real, y: real, xLeft: real, atanLeft: real)
    requires 0.0 < degrees <= 360.0 && y > 0.0 && xLeft < 0.0
    ensures GetDeg(SweepOf(degrees), 0.0, y, 90.0) == SweepOf(degrees).endAngle
    ensures atanLeft <= SweepOf(degrees).startAngle - 90.0 ==>
      GetDeg(SweepOf(degrees), xLeft, y, atanLeft) == SweepOf(degrees).startAngle
    ensures GetDeg(SweepOf(degrees), 0.0, -y, -90.0) == 180.0
  {
  }

  /** The angle a move event stores: the clamped angle, except that the
      start of the sweep itself is stored one degree lower. */
  function StoredAngle(s: Sweep, clamped: real): (r: real)
    ensures r != s.startAngle
    ensures clamped != s.startAngle ==> r == clamped
    ensures clamped == s.startAngle ==> r == clamped - 1.0
  {
    if clamped == s.startAngle then s.startAngle - 1.0 else clamped
  }

  /** After a move the stored angle is one degree below the sweep exactly
      when the clamped angle is the start of the sweep (for a sweep of
      positive width: when the pointer is at or before its start);
      otherwise it is the clamped angle, strictly after the start and at
      most the end. So a moved knob never rests on its start angle. */
  lemma MoveStoresAngle(s: Sweep, x: real, y: real, atanDeg: real)
    requires s.startAngle <= s.endAngle
    ensures var stored := StoredAngle(s, GetDeg(s, x, y, atanDeg));
      (stored == s.startAngle - 1.0 <==> GetDeg(s, x, y, atanDeg) == s.startAngle)
      && (s.startAngle < s.endAngle ==>
            (stored == s.startAngle - 1.0 <==> AdjustedAngle(x, y, atanDeg) <= s.startAngle))
      && (stored != s.startAngle - 1.0 ==> stored == GetDeg(s, x, y, atanDeg))
      && (stored == s.startAngle - 1.0 || s.startAngle < stored <= s.endAngle)
  {
  }

  /** A point on the page, in client coordinates. */
  datatype Point = Point(x: real, y: real)

  /** A mounted knob. `currentDeg` is the component's `let` variable as the
      drag's `mousemove` listener sees it: every render sets that variable
      back to the floored first angle, and the listener's closure keeps its
      own copy. Nothing observable depends on the difference, because the
      listener always assigns `currentDeg` before it reads it. `deg` is the
      rendered state, and `centre` the centre of the knob captured by the
      drag in progress, if any (the moment a `mousemove` listener is
      installed). */
  class Knob {
    const startAngle: real
    const endAngle: real
    var currentDeg: real
    var deg: real
    var centre: Option<Point>

    /** Mounting: the sweep from `degrees`, the first angle from `value`. */
    constructor (degrees: real, min: real, max: real, value: real)
      requires min != max
      ensures Sweep(startAngle, endAngle) == SweepOf(degrees)
      ensures Some(currentDeg) == InitialDeg(degrees, min, max, value)
      ensures deg == currentDeg && centre == None
    {
      var s := SweepOf(degrees);
      startAngle := s.startAngle;
      endAngle := s.endAngle;
      var a := ConvertRange(min, max, s.startAngle, s.endAngle, value).value;
      currentDeg := a.Floor as real;
      deg := a.Floor as real;
      centre := None;
    }

    /** `mousedown` on the knob: capture the centre of the box of the element
      under the pointer (the event's target), whose edges are given. On the
      knob face that element is the inner disc, centred like the knob. */
    method StartDrag(left: real, top: real, width: real, height: real)
      modifies this`centre
      ensures centre == Some(Point(left + width / 2.0, top + height / 2.0))
    {
      centre := Some(Point(left + width / 2.0, top + height / 2.0));
    }

    /** `mousemove` at the client position `(clientX, clientY)`, where
        `atanDeg` is the arctangent of the pointer offset in degrees. With
        no drag in progress nothing listens and nothing changes. */
    method MoveHandler(clientX: real, clientY: real, atanDeg: real)
      modifies this`currentDeg, this`deg
      ensures centre.None? ==> currentDeg == old(currentDeg) && deg == old(deg)
      ensures centre.Some? ==>
        currentDeg == StoredAngle(Sweep(startAngle, endAngle),
          GetDeg(Sweep(startAngle, endAngle), clientX - centre.value.x, clientY - centre.value.y, atanDeg))
        && deg == currentDeg
      ensures centre.Some? && startAngle <= endAngle ==>
        deg == startAngle - 1.0 || startAngle < deg <= endAngle
    {
      if centre.Some? {
        var s := Sweep(startAngle, endAngle);
        var x := clientX - centre.value.x;
        var y := clientY - centre.value.y;
        currentDeg := GetDeg(s, x, y, atanDeg);
        if currentDeg == startAngle {
          currentDeg := currentDeg - 1.0;
        }
        deg := currentDeg;
        if startAngle <= endAngle {
          MoveStoresAngle(s, x, y, atanDeg);
        }
      }
    }

    /** `mouseup`: the `mousemove` listener is removed, the angle stays. */
    method MouseUp()
      modifies this`centre
      ensures centre == None
    {
      centre := None;
    }
  }
}
