/**
  The per-frame control law `compute_control` of the line follower: proportional
  steering from the centroid error and a forward throttle that shrinks as the
  error grows. Floating-point arithmetic is modelled with exact reals.
*/
module LineControl {

  const MAX_FORWARD_THROTTLE: int := 40
  const AUTO_THROTTLE_SCALE: real := 0.1
  const MIN_FORWARD_THROTTLE: int := 1
  /** Proportional steering gain. */
  const KP: real := 7.5
  const STEER_LIMIT: int := 100
  /** The largest nominal throttle: ceil(MAX_FORWARD_THROTTLE * AUTO_THROTTLE_SCALE). */
  const TOP_AUTO_THROTTLE: int := 4

  function Abs(x: int): nat {
    if x < 0 then -x else x
  }

  function Sign(x: int): int {
    if x < 0 then -1 else if x > 0 then 1 else 0
  }

  function MinReal(a: real, b: real): real {
    if a <= b then a else b
  }

  function MaxReal(a: real, b: real): real {
    if a >= b then a else b
  }

  /** Python's `int(x)` on a float: truncation toward zero. */
  function Trunc(x: real): (r: int)
    ensures x >= 0.0 ==> r as real <= x < r as real + 1.0
    ensures x <= 0.0 ==> r as real - 1.0 < x <= r as real
  {
    if x >= 0.0 then x.Floor else -((-x).Floor)
  }

  /** Python's `math.ceil`. */
  function Ceil(x: real): (r: int)
    ensures r as real - 1.0 < x <= r as real
  {
    -((-x).Floor)
  }

  /** Horizontal offset of the centroid from the frame's midpoint (`width // 2`). */
  function SteerError(cx: int, width: int): int
    requires width > 0
  {
    cx - width / 2
  }

  /** `|error| / (width / 2)`, capped at 1.0. */
  function NormError(error: int, width: int): (n: real)
    requires width > 0
    ensures 0.0 <= n <= 1.0
    ensures n < 1.0 <==> 2 * Abs(error) < width
  {
    RatioFacts(Abs(error), width);
    MinReal(Abs(error) as real / (width as real / 2.0), 1.0)
  }

  lemma RatioFacts(a: nat, width: int)
    requires width > 0
    ensures a as real / (width as real / 2.0) >= 0.0
    ensures a as real / (width as real / 2.0) < 1.0 <==> 2 * a < width
  {
    var d := width as real / 2.0;
    var q := a as real / d;
    assert q * d == a as real;
    ProductSign(q, d);
    ProductSign(q - 1.0, d);
  }

  lemma ProductSign(x: real, y: real)
    requires y > 0.0
    ensures x >= 0.0 <==> x * y >= 0.0
    ensures x > 0.0 <==> x * y > 0.0
  {
  }

  /** Line 59: `int(max(min(-7.5 * error, 100), -100))`. */
  function SteerCommand(error: int): (steer: int)
    ensures -STEER_LIMIT <= steer <= STEER_LIMIT
    ensures steer < 0 <==> error > 0
    ensures steer > 0 <==> error < 0
  {
    Trunc(MaxReal(MinReal(-KP * error as real, STEER_LIMIT as real), -STEER_LIMIT as real))
  }

  /**
    Lines 61-68: `(1 - norm_error) * 40 * 0.1`, rounded up with a floor of 1
    while positive, else 0.
  */
  function NominalThrottle(error: int, width: int): (throttle: int)
    requires width > 0
    ensures 0 <= throttle <= TOP_AUTO_THROTTLE
    ensures throttle == 0 <==> 2 * Abs(error) >= width
    ensures throttle != 0 ==> throttle >= MIN_FORWARD_THROTTLE
  {
    var normError := NormError(error, width);
    var baseThrottle := (1.0 - normError) * MAX_FORWARD_THROTTLE as real;
    var rawThr := baseThrottle * AUTO_THROTTLE_SCALE;
    if rawThr > 0.0 then
      var c := Ceil(rawThr); if c >= MIN_FORWARD_THROTTLE then c else MIN_FORWARD_THROTTLE
    else 0
  }

  /** `compute_control(cx, width)`: the (steer, throttle) pair for one centroid. */
  function ComputeControl(cx: int, width: int): (r: (int, int))
    requires width > 0
    ensures -STEER_LIMIT <= r.0 <= STEER_LIMIT
    ensures r.0 < 0 <==> cx > width / 2
    ensures r.0 > 0 <==> cx < width / 2
    ensures 0 <= r.1 <= TOP_AUTO_THROTTLE
    ensures r.1 == 0 <==> 2 * Abs(SteerError(cx, width)) >= width
    ensures r.1 != 0 ==> r.1 >= MIN_FORWARD_THROTTLE
  {
    var error := SteerError(cx, width);
    (SteerCommand(error), NominalThrottle(error, width))
  }

  /** A centred line gives straight steering and the full nominal throttle. */
  lemma CenteredGivesFullThrottle(cx: int, width: int)
    requires width > 0 && cx == width / 2
    ensures ComputeControl(cx, width) == (0, TOP_AUTO_THROTTLE)
  {
    assert SteerError(cx, width) == 0;
    assert NormError(0, width) == 0.0;
    assert Ceil(4.0) == 4;
  }

  /**
    Independent integer statement of the steering law: the magnitude is
    `floor(15 * |error| / 2)` capped at 100, with the sign opposite the error.
  */
  lemma {:induction false} SteerIntegerLaw(cx: int, width: int)
    requires width > 0
    ensures var e := SteerError(cx, width);
            var m := if 15 * Abs(e) / 2 < STEER_LIMIT then 15 * Abs(e) / 2 else STEER_LIMIT;
            ComputeControl(cx, width).0 == -Sign(e) * m
  {
    var e := SteerError(cx, width);
    var k := 15 * Abs(e);
    HalfFloor(k);
    var x := -KP * e as real;
    assert ComputeControl(cx, width).0 == SteerCommand(e);
    if e >= 0 {
      assert -x == k as real / 2.0;
    } else {
      assert x == k as real / 2.0;
    }
  }

  lemma HalfFloor(k: nat)
    ensures (k as real / 2.0).Floor == k / 2
  {
    var q := k / 2;
    assert k == 2 * q || k == 2 * q + 1;
  }

  /** Moving the centroid to the right never turns the steering further right. */
  lemma SteerNonIncreasing(cx1: int, cx2: int, width: int)
    requires width > 0 && cx1 <= cx2
    ensures ComputeControl(cx2, width).0 <= ComputeControl(cx1, width).0
  {
    SteerIntegerLaw(cx1, width);
    SteerIntegerLaw(cx2, width);
    var e1, e2 := SteerError(cx1, width), SteerError(cx2, width);
    if e1 < 0 && e2 < 0 {
      assert 15 * Abs(e2) / 2 <= 15 * Abs(e1) / 2;
    } else if e1 > 0 && e2 > 0 {
      assert 15 * Abs(e1) / 2 <= 15 * Abs(e2) / 2;
    }
  }

  /** The nominal throttle never rises as the centroid moves away from the midpoint. */
  lemma ThrottleNonIncreasing(cx1: int, cx2: int, width: int)
    requires width > 0
    requires Abs(SteerError(cx1, width)) <= Abs(SteerError(cx2, width))
    ensures ComputeControl(cx2, width).1 <= ComputeControl(cx1, width).1
  {
    var a1, a2 := Abs(SteerError(cx1, width)), Abs(SteerError(cx2, width));
    var d := width as real / 2.0;
    RealQuotientMonotone(a1 as real, a2 as real, d);
    var n1, n2 := NormError(SteerError(cx1, width), width), NormError(SteerError(cx2, width), width);
    assert ComputeControl(cx1, width).1 == NominalThrottle(SteerError(cx1, width), width);
    assert ComputeControl(cx2, width).1 == NominalThrottle(SteerError(cx2, width), width);
    assert n1 <= n2;
    var r1 := (1.0 - n1) * MAX_FORWARD_THROTTLE as real * AUTO_THROTTLE_SCALE;
    var r2 := (1.0 - n2) * MAX_FORWARD_THROTTLE as real * AUTO_THROTTLE_SCALE;
    assert r2 <= r1;
    if r2 > 0.0 {
      CeilMonotone(r2, r1);
    }
  }

  lemma RealQuotientMonotone(x: real, y: real, d: real)
    requires 0.0 <= x <= y && d > 0.0
    ensures x / d <= y / d
  {
    assert y / d - x / d == (y - x) / d;
    assert ((y - x) / d) * d == y - x;
    ProductSign((y - x) / d, d);
  }

  lemma CeilMonotone(x: real, y: real)
    requires x <= y
    ensures Ceil(x) <= Ceil(y)
  {
  }
}
