/** What the firmware's pulse conversion and manual pass-through promise. */
module FirmwareProperties {
  import opened Firmware

  lemma QuotientMonotone(a: int, b: int, d: int)
    requires a <= b && d > 0
    ensures a / d <= b / d
  {
    var q1, q2 := a / d, b / d;
    assert q1 * d + a % d == a;
    assert q2 * d + b % d == b;
    if q1 > q2 {
      MulLeq(q2 + 1, q1, d);
    }
  }

  /** `map` over an increasing input range onto an increasing output range is monotone. */
  lemma MapMonotone(x1: int, x2: int, inMin: int, inMax: int, outMin: int, outMax: int)
    requires inMin < inMax && outMin <= outMax
    requires inMin <= x1 <= x2 <= inMax
    ensures ArduinoMap(x1, inMin, inMax, outMin, outMax) <= ArduinoMap(x2, inMin, inMax, outMin, outMax)
  {
    var m := outMax - outMin;
    MulLeq(x1 - inMin, x2 - inMin, m);
    MulLeq(0, x1 - inMin, m);
    QuotientMonotone((x1 - inMin) * m, (x2 - inMin) * m, inMax - inMin);
  }

  /** The steering pulse is exactly 1500 + 5 us per unit of the clamped steer command. */
  lemma SteerPulseLaw(steerCmd: int, throttleCmd: int)
    ensures CommandPulses(steerCmd, throttleCmd).steer == NEUTRAL_PULSE + 5 * Constrain(steerCmd, -100, 100)
  {
    var c := Constrain(steerCmd, -100, 100);
    assert (c + 100) * 1000 == 200 * (5 * (c + 100));
    ExactQuotient(200, 5 * (c + 100));
  }

  /** A larger steer command never gives a smaller steering pulse. */
  lemma SteerPulseMonotone(s1: int, s2: int, throttleCmd: int)
    requires s1 <= s2
    ensures CommandPulses(s1, throttleCmd).steer <= CommandPulses(s2, throttleCmd).steer
  {
    SteerPulseLaw(s1, throttleCmd);
    SteerPulseLaw(s2, throttleCmd);
  }

  /** A larger throttle command never gives a smaller throttle pulse, deadband lift included. */
  lemma ThrottlePulseMonotone(steerCmd: int, t1: int, t2: int)
    requires t1 <= t2
    ensures CommandPulses(steerCmd, t1).throttle <= CommandPulses(steerCmd, t2).throttle
  {
    if 0 <= t1 {
      MapMonotone(Constrain(t1, 0, FORWARD_LIMIT), Constrain(t2, 0, FORWARD_LIMIT), 0, FORWARD_LIMIT, 1520, 1620);
    } else if t2 < 0 {
      MapMonotone(Constrain(t1, -REVERSE_LIMIT, 0), Constrain(t2, -REVERSE_LIMIT, 0), -REVERSE_LIMIT, 0, 1100, 1480);
    }
  }

  /**
    Every forward command up to 13, zero included, lands in the deadband and
    is lifted to the same pulse.
  */
  lemma SmallForwardCommandsShareOnePulse(steerCmd: int, throttleCmd: int)
    requires 0 <= throttleCmd <= 13
    ensures CommandPulses(steerCmd, throttleCmd).throttle == DEADBAND_EXIT
  {
    ThrottlePulseMonotone(steerCmd, throttleCmd, 13);
  }

  /** A larger receiver throttle pulse never gives a smaller manual output pulse. */
  lemma ManualThrottleMonotone(p1: int, p2: int)
    requires 1000 <= p1 <= p2 <= 2000
    ensures ManualThrottle(p1).value <= ManualThrottle(p2).value
  {
  }
}
