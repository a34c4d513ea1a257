/**
  The serial link between the two programs: the line the controller writes
  each tick is the line the firmware reads, scans and turns into pulses.
*/
module SerialLink {
  import opened Wrappers
  import opened Decimal
  import opened LineControl
  import opened Navigator
  import opened Firmware
  import FirmwareProperties

  /** The digit scan reads back exactly what `str` wrote for a magnitude. */
  lemma ScanDigitsCanonical(m: nat, rest: string)
    requires rest == [] || !IsDigit(rest[0])
    ensures ScanDigits(NatToString(m) + rest) == Some((m, |NatToString(m)|))
  {
    var d := NatToString(m);
    DigitRunOfDigits(d, rest);
    assert (d + rest)[..|d|] == d;
    NatToStringRoundTrip(m);
  }

  /** A sign (for negatives) and the digits read back as the number `str` wrote. */
  lemma ScanSignedCanonical(n: int, rest: string)
    requires rest == [] || !IsDigit(rest[0])
    ensures ScanSigned(IntToString(n) + rest) == Some((n, |IntToString(n)|))
  {
    if n < 0 {
      ScanSignedNegative(n, rest);
    } else {
      ScanSignedNonNegative(n, rest);
    }
  }

  lemma ScanSignedNegative(n: int, rest: string)
    requires n < 0
    requires rest == [] || !IsDigit(rest[0])
    ensures ScanSigned(IntToString(n) + rest) == Some((n, |IntToString(n)|))
  {
    assert IntToString(n) == "-" + NatToString(-n);
    ScanNegative(-n, rest);
  }

  lemma ScanSignedNonNegative(n: int, rest: string)
    requires n >= 0
    requires rest == [] || !IsDigit(rest[0])
    ensures ScanSigned(IntToString(n) + rest) == Some((n, |IntToString(n)|))
  {
    assert IntToString(n) == NatToString(n);
    ScanNonNegative(n, rest);
  }

  lemma ScanNonNegative(m: nat, rest: string)
    requires rest == [] || !IsDigit(rest[0])
    ensures ScanSigned(NatToString(m) + rest) == Some((m as int, |NatToString(m)|))
  {
    var t := NatToString(m) + rest;
    assert t[0] == NatToString(m)[0];
    assert IsDigit(t[0]);
    ScanDigitsCanonical(m, rest);
  }

  lemma ScanNegative(m: nat, rest: string)
    requires m > 0
    requires rest == [] || !IsDigit(rest[0])
    ensures ScanSigned("-" + NatToString(m) + rest) == Some((-(m as int), 1 + |NatToString(m)|))
  {
    var t := "-" + NatToString(m) + rest;
    assert t[1..] == NatToString(m) + rest;
    ScanDigitsCanonical(m, rest);
  }

  /** `%d` reads back exactly what Python's `str` wrote, stopping at the first non-digit. */
  lemma ScanIntCanonical(n: int, rest: string)
    requires rest == [] || !IsDigit(rest[0])
    ensures ScanInt(IntToString(n) + rest) == Some((n, |IntToString(n)|))
  {
    var s := IntToString(n) + rest;
    assert !IsSpace(s[0]);
    assert SpaceRun(s) == 0;
    assert s[0..] == s;
    ScanSignedCanonical(n, rest);
  }

  /**
    For every command in range, the canonical line survives
    `readStringUntil('\n')`, fits the 32-byte buffer, and scans back to
    exactly the same two integers.
  */
  lemma CommandLineRoundTrip(steer: int, throttle: int, more: string)
    requires -STEER_LIMIT <= steer <= STEER_LIMIT
    requires -Navigator.REVERSE_LIMIT <= throttle <= MAX_FORWARD_THROTTLE
    ensures var line := LineBeforeNewline(FormatCommand(steer, throttle) + more);
            && line == IntToString(steer) + "," + IntToString(throttle)
            && |line| < BUFFER_SIZE
            && ScanCommand(ToCharArray(line)) == Some((steer, throttle))
  {
    var body := IntToString(steer) + "," + IntToString(throttle);
    assert FormatCommand(steer, throttle) + more == body + ("\n" + more);
    IntToStringHasNoNewline(steer);
    IntToStringHasNoNewline(throttle);
    NewlineCut(body, "\n" + more);
    CommandFits(steer, throttle);
    PairScans(steer, throttle);
  }

  /** Two numbers of at most three digits and a comma fit the firmware's buffer. */
  lemma CommandFits(a: int, b: int)
    requires -1000 < a < 1000 && -1000 < b < 1000
    ensures |IntToString(a) + "," + IntToString(b)| < BUFFER_SIZE
  {
  }

  /** `sscanf("%d,%d")` on the two decimal numbers joined by a comma gives both back. */
  lemma PairScans(a: int, b: int)
    ensures ScanCommand(IntToString(a) + "," + IntToString(b)) == Some((a, b))
  {
    var sa, sb := IntToString(a), IntToString(b);
    var body := sa + "," + sb;
    assert body == sa + ("," + sb);
    ScanIntCanonical(a, "," + sb);
    assert body[|sa| + 1..] == sb + [];
    ScanIntCanonical(b, []);
    ScanCommandOf(body, a, |sa|, b, |sb|);
  }

  lemma ScanCommandOf(buf: string, a: int, i: nat, b: int, j: nat)
    requires ScanInt(buf) == Some((a, i))
    requires i < |buf| && buf[i] == ','
    requires ScanInt(buf[i + 1..]) == Some((b, j))
    ensures ScanCommand(buf) == Some((a, b))
  {
  }

  lemma {:induction false} NewlineCut(body: string, tail: string)
    requires '\n' !in body && |tail| > 0 && tail[0] == '\n'
    ensures LineBeforeNewline(body + tail) == body
    decreases |body|
  {
    if body == [] {
      assert body + tail == tail;
    } else {
      assert (body + tail)[1..] == body[1..] + tail;
      NewlineCut(body[1..], tail);
    }
  }

  /**
    End to end: whatever one controller tick emits, the firmware in automatic
    mode drives exactly the pulses for that command. The forward throttles it
    can emit (1 to 4, and the neutral 0) all reach the ESC as the deadband
    pulse; the recovery throttle reverses.
  */
  lemma TickDrivesFirmware(s: State, o: Observation, now: real, more: string)
    requires s.Inv() && o.width > 0
    ensures var c := Step(s, o, now).1;
            var p := AutoPulses(FormatCommand(c.steer, c.throttle) + more);
            && p == CommandPulses(c.steer, c.throttle)
            && p.steer == NEUTRAL_PULSE + 5 * c.steer
            && (c.throttle >= 0 ==> p.throttle == DEADBAND_EXIT)
            && (c.throttle < 0 ==> p.throttle == 1429)
  {
    var c := Step(s, o, now).1;
    CommandLineRoundTrip(c.steer, c.throttle, more);
    FirmwareProperties.SteerPulseLaw(c.steer, c.throttle);
    if c.throttle >= 0 {
      FirmwareProperties.SmallForwardCommandsShareOnePulse(c.steer, c.throttle);
    }
  }
}
