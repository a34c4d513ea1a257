/**
  The decision logic of the microcontroller's `loop()`: the mode switch, the
  serial command line to servo/ESC pulse conversion in automatic mode, the
  receiver pass-through in manual mode, and the CH5/CH7 LED blink timers.
  Pulse widths are in microseconds, times in milliseconds.
*/
module Firmware {
  import opened Wrappers
  import opened Decimal

  const FORWARD_LIMIT: int := 40
  const REVERSE_LIMIT: int := 75
  const BLINK_INTERVAL: int := 300
  const NEUTRAL_PULSE: int := 1500
  /** Throttle pulses above neutral but below this are raised to it (ESC deadband). */
  const DEADBAND_EXIT: int := 1553
  const MANUAL_NEUTRAL: int := 1504
  /** `char buf[32]`: room for 31 characters and the terminating NUL. */
  const BUFFER_SIZE: int := 32

  /** Arduino's `unsigned long`, the type of `millis()`. */
  type u32 = x: int | 0 <= x < 0x1_0000_0000

  /** Arduino's `constrain(amt, low, high)` macro. */
  function Constrain(x: int, lo: int, hi: int): (r: int)
    ensures x < lo ==> r == lo
    ensures lo <= x <= hi ==> r == x
    ensures lo <= x && x > hi ==> r == hi
  {
    if x < lo then lo else if x > hi then hi else x
  }

  /** C's `/` on integers: the quotient truncated toward zero. */
  function CDiv(a: int, b: int): (q: int)
    requires b != 0
    ensures a >= 0 && b > 0 ==> q == a / b
  {
    if b > 0 then (if a >= 0 then a / b else -((-a) / b))
    else (if a >= 0 then -(a / (-b)) else (-a) / (-b))
  }

  /** Arduino's `map`: `(x - in_min) * (out_max - out_min) / (in_max - in_min) + out_min`. */
  function ArduinoMap(x: int, inMin: int, inMax: int, outMin: int, outMax: int): (r: int)
    requires inMin != inMax
    ensures inMin < inMax && outMin <= outMax && inMin <= x <= inMax ==> outMin <= r <= outMax
    ensures x == inMin ==> r == outMin
    ensures x == inMax ==> r == outMax
  {
    var scaled := CDiv((x - inMin) * (outMax - outMin), inMax - inMin);
    MapBounds(x, inMin, inMax, outMin, outMax);
    scaled + outMin
  }

  lemma MapBounds(x: int, inMin: int, inMax: int, outMin: int, outMax: int)
    requires inMin != inMax
    ensures inMin < inMax && outMin <= outMax && inMin <= x <= inMax ==>
              0 <= CDiv((x - inMin) * (outMax - outMin), inMax - inMin) <= outMax - outMin
    ensures x == inMin ==> CDiv((x - inMin) * (outMax - outMin), inMax - inMin) == 0
    ensures x == inMax ==> CDiv((x - inMin) * (outMax - outMin), inMax - inMin) == outMax - outMin
  {
    var d, m := inMax - inMin, outMax - outMin;
    var n := (x - inMin) * m;
    if x == inMin {
      assert n == 0;
    }
    if x == inMax {
      assert n == d * m;
      CDivExact(d, m);
    }
    if inMin < inMax && outMin <= outMax && inMin <= x <= inMax {
      ScaledQuotientBounds(x - inMin, d, m);
    }
  }

  lemma CDivExact(d: int, m: int)
    requires d != 0
    ensures CDiv(d * m, d) == m
  {
    var a := d * m;
    if d > 0 {
      if a >= 0 {
        ExactQuotient(d, m);
      } else {
        assert -a == d * (-m);
        ExactQuotient(d, -m);
      }
    } else {
      var e := -d;
      if a >= 0 {
        assert a == e * (-m);
        ExactQuotient(e, -m);
      } else {
        assert -a == e * m;
        ExactQuotient(e, m);
      }
    }
  }

  lemma ScaledQuotientBounds(n: int, d: int, m: int)
    requires 0 <= n <= d && m >= 0
    requires d > 0
    ensures 0 <= (n * m) / d <= m
  {
    MulLeq(n, d, m);
    MulLeq(0, n, m);
    QuotientBounds(n * m, d, m);
  }

  lemma ExactQuotient(e: int, m: int)
    requires e > 0
    ensures (e * m) / e == m
  {
    var q, r := (e * m) / e, (e * m) % e;
    assert q * e + r == m * e;
    if q < m {
      MulLeq(1, m - q, e);
    } else if q > m {
      MulLeq(1, q - m, e);
    }
  }

  lemma MulLeq(a: int, b: int, c: int)
    requires a <= b && c >= 0
    ensures a * c <= b * c
  {
    assert b * c - a * c == (b - a) * c;
  }

  lemma QuotientBounds(n: int, d: int, m: int)
    requires d > 0 && 0 <= n <= d * m
    ensures 0 <= n / d <= m
  {
    var q, r := n / d, n % d;
    assert q * d + r == n;
    if q > m {
      MulLeq(m + 1, q, d);
    }
  }

  /** The servo and ESC pulses written in automatic mode. */
  datatype Pulses = Pulses(steer: int, throttle: int)

  /**
    Lines 108-121 of `loop()`: clamp the parsed command, map it to pulse
    widths, and lift a forward pulse out of the ESC deadband.
  */
  function CommandPulses(steerCmd: int, throttleCmd: int): (p: Pulses)
    ensures 1000 <= p.steer <= 2000
    ensures steerCmd <= -100 ==> p.steer == 1000
    ensures steerCmd == 0 ==> p.steer == NEUTRAL_PULSE
    ensures steerCmd >= 100 ==> p.steer == 2000
    ensures throttleCmd >= 0 ==> DEADBAND_EXIT <= p.throttle <= 1620
    ensures throttleCmd < 0 ==> 1100 <= p.throttle <= 1480
    ensures throttleCmd >= FORWARD_LIMIT ==> p.throttle == 1620
    ensures throttleCmd <= -REVERSE_LIMIT ==> p.throttle == 1100
    ensures !(NEUTRAL_PULSE < p.throttle < DEADBAND_EXIT)
  {
    var s := Constrain(steerCmd, -100, 100);
    var t := if throttleCmd > 0 then Constrain(throttleCmd, 0, FORWARD_LIMIT)
             else Constrain(throttleCmd, -REVERSE_LIMIT, 0);
    var steerPulse := ArduinoMap(s, -100, 100, 1000, 2000);
    var throttlePulse := if t >= 0 then ArduinoMap(t, 0, FORWARD_LIMIT, 1520, 1620)
                         else ArduinoMap(t, -REVERSE_LIMIT, 0, 1100, 1480);
    var lifted := if throttlePulse > NEUTRAL_PULSE && throttlePulse < DEADBAND_EXIT then DEADBAND_EXIT
                  else throttlePulse;
    Pulses(steerPulse, lifted)
  }

  /** C's `isspace`. */
  predicate IsSpace(c: char) {
    c == ' ' || '\t' <= c <= '\r'
  }

  function SpaceRun(s: string): (n: nat)
    ensures n <= |s|
    ensures forall i :: 0 <= i < n ==> IsSpace(s[i])
    ensures n < |s| ==> !IsSpace(s[n])
    decreases |s|
  {
    if s == [] || !IsSpace(s[0]) then 0 else 1 + SpaceRun(s[1..])
  }

  /** The digits of a `%d` conversion: at least one; the value and how many were read. */
  function ScanDigits(u: string): (r: Option<(nat, nat)>)
    ensures r.Some? ==> 0 < r.value.1 <= |u|
    ensures r.Some? && r.value.1 < |u| ==> !IsDigit(u[r.value.1])
    ensures r.None? <==> u == [] || !IsDigit(u[0])
  {
    var n := DigitRun(u);
    if n == 0 then None else Some((DigitsValue(u[..n]), n))
  }

  /** An optional sign, then the digits. */
  function ScanSigned(t: string): (r: Option<(int, nat)>)
    ensures r.Some? ==> 0 < r.value.1 <= |t|
    ensures r.Some? && r.value.1 < |t| ==> !IsDigit(t[r.value.1])
  {
    if |t| > 0 && (t[0] == '-' || t[0] == '+') then
      match ScanDigits(t[1..])
      case None => None
      case Some((m, n)) =>
        var v: int := if t[0] == '-' then -(m as int) else m;
        Some((v, n + 1))
    else
      match ScanDigits(t)
      case None => None
      case Some((m, n)) => Some((m as int, n))
  }

  /**
    One `%d` conversion of `sscanf`: skip white space, an optional sign, then
    at least one digit. Gives the value and the index just past it.
  */
  function ScanInt(s: string): (r: Option<(int, nat)>)
    ensures r.Some? ==> 0 < r.value.1 <= |s|
    ensures r.Some? && r.value.1 < |s| ==> !IsDigit(s[r.value.1])
  {
    var k := SpaceRun(s);
    match ScanSigned(s[k..])
    case None => None
    case Some((v, n)) => Some((v, k + n))
  }

  /** `sscanf(buf, "%d,%d", &steerCmd, &throttleCmd) == 2`, with the two values. */
  function ScanCommand(buf: string): (r: Option<(int, int)>)
    ensures r.Some? ==> ScanInt(buf).Some? && r.value.0 == ScanInt(buf).value.0
    ensures ',' !in buf ==> r.None?
  {
    match ScanInt(buf)
    case None => None
    case Some((a, i)) =>
      if i < |buf| && buf[i] == ',' then
        match ScanInt(buf[i + 1..])
        case None => None
        case Some((b, _)) => Some((a, b))
      else None
  }

  /** `Serial.readStringUntil('\n')`: everything before the first newline. */
  function LineBeforeNewline(incoming: string): (line: string)
    ensures |line| <= |incoming| && line == incoming[..|line|]
    ensures '\n' !in line
    ensures |line| < |incoming| ==> incoming[|line|] == '\n'
    decreases |incoming|
  {
    if incoming == [] || incoming[0] == '\n' then []
    else [incoming[0]] + LineBeforeNewline(incoming[1..])
  }

  /** `line.toCharArray(buf, sizeof(buf))`: at most 31 characters survive. */
  function ToCharArray(line: string): (buf: string)
    ensures |buf| <= BUFFER_SIZE - 1 && |buf| <= |line| && buf == line[..|buf|]
    ensures |line| < BUFFER_SIZE ==> buf == line
  {
    if |line| < BUFFER_SIZE then line else line[..BUFFER_SIZE - 1]
  }

  /**
    Automatic mode, lines 98-122: neutral pulses unless serial input is
    waiting and its first line scans as two integers.
  */
  function AutoPulses(incoming: string): (p: Pulses)
    ensures incoming == [] ==> p == Pulses(NEUTRAL_PULSE, NEUTRAL_PULSE)
    ensures ScanCommand(ToCharArray(LineBeforeNewline(incoming))).None? ==> p == Pulses(NEUTRAL_PULSE, NEUTRAL_PULSE)
    ensures incoming != [] && ScanCommand(ToCharArray(LineBeforeNewline(incoming))).Some? ==>
              var cmd := ScanCommand(ToCharArray(LineBeforeNewline(incoming))).value;
              p == CommandPulses(cmd.0, cmd.1)
    ensures 1000 <= p.steer <= 2000 && 1100 <= p.throttle <= 1620
    ensures !(NEUTRAL_PULSE < p.throttle < DEADBAND_EXIT)
  {
    if incoming == [] then Pulses(NEUTRAL_PULSE, NEUTRAL_PULSE)
    else
      match ScanCommand(ToCharArray(LineBeforeNewline(incoming)))
      case None => Pulses(NEUTRAL_PULSE, NEUTRAL_PULSE)
      case Some((steerCmd, throttleCmd)) => CommandPulses(steerCmd, throttleCmd)
  }

  /** Manual steering, lines 137-138: a receiver pulse in [1000, 2000] is passed through. */
  function ManualSteer(steerIn: int): (w: Option<int>)
    ensures w.Some? <==> 1000 <= steerIn <= 2000
    ensures w.Some? ==> w.value == steerIn
  {
    if steerIn >= 1000 && steerIn <= 2000 then Some(steerIn) else None
  }

  /**
    Manual throttle, lines 143-151: a receiver pulse in [1000, 2000] becomes
    1504 plus its offset from 1500, limited to 40 forward and 75 reverse.
  */
  function ManualThrottle(pwmIn: int): (w: Option<int>)
    ensures w.Some? <==> 1000 <= pwmIn <= 2000
    ensures w.Some? ==> MANUAL_NEUTRAL - REVERSE_LIMIT <= w.value <= MANUAL_NEUTRAL + FORWARD_LIMIT
    ensures w.Some? && NEUTRAL_PULSE - REVERSE_LIMIT <= pwmIn <= NEUTRAL_PULSE + FORWARD_LIMIT ==>
              w.value == pwmIn + (MANUAL_NEUTRAL - NEUTRAL_PULSE)
    ensures w.Some? && pwmIn > NEUTRAL_PULSE + FORWARD_LIMIT ==> w.value == MANUAL_NEUTRAL + FORWARD_LIMIT
    ensures w.Some? && pwmIn < NEUTRAL_PULSE - REVERSE_LIMIT ==> w.value == MANUAL_NEUTRAL - REVERSE_LIMIT
  {
    if pwmIn >= 1000 && pwmIn <= 2000 then
      var offset := pwmIn - NEUTRAL_PULSE;
      var limited := if offset > 0 then Constrain(offset, 0, FORWARD_LIMIT)
                     else Constrain(offset, -REVERSE_LIMIT, 0);
      Some(MANUAL_NEUTRAL + limited)
    else None
  }

  /** The mode switch, line 93: automatic iff the SwA pulse exceeds 1500 us. */
  predicate AutoMode(modePulse: int) {
    modePulse > NEUTRAL_PULSE
  }

  /** The servo writes of one `loop()` pass; None means the output is left as it was. */
  datatype ServoWrites = ServoWrites(steer: Option<int>, throttle: Option<int>)

  /** Lines 92-154: which pulse each servo gets in one pass. */
  function LoopWrites(modePulse: int, incoming: string, steerIn: int, pwmIn: int): (w: ServoWrites)
    ensures AutoMode(modePulse) ==>
              w.steer.Some? && w.throttle.Some? && w == ServoWrites(Some(AutoPulses(incoming).steer), Some(AutoPulses(incoming).throttle))
    ensures !AutoMode(modePulse) ==> w == ServoWrites(ManualSteer(steerIn), ManualThrottle(pwmIn))
    ensures w.steer.Some? ==> 1000 <= w.steer.value <= 2000
    ensures w.throttle.Some? ==> 1100 <= w.throttle.value <= 1620
  {
    if AutoMode(modePulse) then
      var p := AutoPulses(incoming);
      ServoWrites(Some(p.steer), Some(p.throttle))
    else
      ServoWrites(ManualSteer(steerIn), ManualThrottle(pwmIn))
  }

  // ----- CH5/CH7 LEDs -----

  /** `now - last` on `unsigned long`: elapsed milliseconds, correct across a `millis()` wrap. */
  function Elapsed(now: u32, last: u32): (d: u32)
    ensures last <= now ==> d == now - last
    ensures now < last ==> d == now + 0x1_0000_0000 - last
  {
    (now - last) % 0x1_0000_0000
  }

  /** LED output levels (true is HIGH) and the two toggle timers. */
  datatype Leds = Leds(led1: bool, led2: bool, lastToggleTime1: u32, lastToggleTime2: u32)

  /**
    One blink channel in the CH7-down branch. The pin was just driven LOW, so
    the toggle `!digitalRead(pin)` always drives it HIGH; an inactive channel
    is LOW with its timer reset to now.
  */
  function ChannelStep(active: bool, last: u32, now: u32): (r: (bool, u32))
    ensures r.0 <==> active && Elapsed(now, last) >= BLINK_INTERVAL
    ensures r.1 == (if r.0 || !active then now else last)
  {
    if active then
      if Elapsed(now, last) >= BLINK_INTERVAL then (true, now) else (false, last)
    else (false, now)
  }

  /** Lines 54-89: the LED state after one `loop()` pass. */
  function BlinkStep(s: Leds, now: u32, pwm7: int, pwm5: int): (r: Leds)
    ensures pwm7 > NEUTRAL_PULSE ==>
              r.led1 && r.led2 && r.lastToggleTime1 == s.lastToggleTime1 && r.lastToggleTime2 == s.lastToggleTime2
    ensures pwm7 <= NEUTRAL_PULSE ==>
              && (r.led1 <==> pwm5 >= 1900 && Elapsed(now, s.lastToggleTime1) >= BLINK_INTERVAL)
              && (r.led2 <==> 0 < pwm5 <= 1100 && Elapsed(now, s.lastToggleTime2) >= BLINK_INTERVAL)
              && (r.led1, r.lastToggleTime1) == ChannelStep(pwm5 >= 1900, s.lastToggleTime1, now)
              && (r.led2, r.lastToggleTime2) == ChannelStep(0 < pwm5 <= 1100, s.lastToggleTime2, now)
  {
    if pwm7 > NEUTRAL_PULSE then
      s.(led1 := true, led2 := true)
    else
      var (l1, t1) := ChannelStep(pwm5 >= 1900, s.lastToggleTime1, now);
      var (l2, t2) := ChannelStep(pwm5 <= 1100 && pwm5 > 0, s.lastToggleTime2, now);
      Leds(l1, l2, t1, t2)
  }

  /** The LED pins and the two globals `lastToggleTime1`, `lastToggleTime2`. */
  class ChannelLeds {
    var led1: bool
    var led2: bool
    var lastToggleTime1: u32
    var lastToggleTime2: u32

    function Snapshot(): Leds
      reads this
    {
      Leds(led1, led2, lastToggleTime1, lastToggleTime2)
    }

    /** After `setup()`: pins LOW, timers zero. */
    constructor ()
      ensures Snapshot() == Leds(false, false, 0, 0)
    {
      led1, led2 := false, false;
      lastToggleTime1, lastToggleTime2 := 0, 0;
    }

    /** The LED part of one `loop()` pass, given the clock and the two switch pulses. */
    method Update(now: u32, pwm7: int, pwm5: int)
      modifies this
      ensures Snapshot() == BlinkStep(old(Snapshot()), now, pwm7, pwm5)
    {
      if pwm7 > NEUTRAL_PULSE {
        led1 := true;
        led2 := true;
      } else {
        led1 := false;
        led2 := false;

        if pwm5 >= 1900 {
          if Elapsed(now, lastToggleTime1) >= BLINK_INTERVAL {
            lastToggleTime1 := now;
            led1 := !led1;
          }
        } else {
          led1 := false;
          lastToggleTime1 := now;
        }

        if pwm5 <= 1100 && pwm5 > 0 {
          if Elapsed(now, lastToggleTime2) >= BLINK_INTERVAL {
            lastToggleTime2 := now;
            led2 := !led2;
          }
        } else {
          led2 := false;
          lastToggleTime2 := now;
        }
      }
    }
  }
}
