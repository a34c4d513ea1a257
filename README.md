# RC line follower: control loop and firmware command path

This project models the decision core of an RC car that follows a dark line on the floor. It covers two programs.

- **The Raspberry Pi controller** (`Websockets_Connect_With_Arduino.py`).
  - Each camera frame yields a line centroid `cx` (or none), the frame width and a coverage ratio.
  - `compute_control` turns the centroid into a steering command and a forward throttle.
  - The body of the `stream` loop is a timed state machine. It handles the MANUAL to AUTO handoff, line following, recovery after the line is lost, and two settle delays. Each tick it clamps the throttle, remembers the steer it sent, and writes `"{steer},{throttle}\n"` to the serial port.
- **The Arduino firmware** (`src/main.cpp`, `loop()`).
  - An RC switch selects automatic or manual mode.
  - In automatic mode the firmware reads one serial line and scans it with `sscanf("%d,%d")`. It clamps the two values, maps them with Arduino's `map` onto servo and ESC pulse widths, and lifts forward pulses out of the ESC deadband.
  - In manual mode it passes the receiver's steering pulse through and re-centres the throttle pulse, with limits.
  - Two LEDs blink on timers driven by two more switch channels.

Modules:

- `LineControl`: `compute_control`, over exact reals.
- `Navigator`: the loop state (`State`) and its transition function `Step`. `Run` iterates `Step`. The class `Controller` holds the same seven variables as fields, and its `Tick` method is the loop body written imperatively and proved equal to `Step`.
- `NavigatorProperties`: what the state machine promises, tick by tick and over runs of ticks, plus a worked eight-tick run.
- `Firmware`: `Constrain`, `map` with C division, the `%d` scan, the serial-line handling, the pulse computation, and manual pass-through. It also holds the LED timers as a pure `BlinkStep` and as the class `ChannelLeds`, whose `Update` method is proved equal to `BlinkStep`.
- `FirmwareProperties`: monotonicity and exact pulse laws.
- `SerialLink`: the two programs joined. Every line the controller writes reaches the firmware's buffer whole and scans back to the same two integers. Every tick's command drives exactly the pulses computed from it.
- `Decimal`: Python's `str` on integers and the digit scan.
- `Wrappers`: `Option`.

What the proofs show about the system as written:

- The steering pulse is always `1500 + 5 * steer`.
- The firmware maps every forward throttle from 0 to 13 to the single deadband pulse 1553. The controller only emits forward throttles 0 to 4, so in automatic driving the ESC sees one forward speed, 1553, and one reverse speed, 1429 for the recovery throttle -10. A neutral command `(0, 0)` also produces the forward pulse 1553, not 1500.
- In the CH5 blink logic, both LED pins are driven LOW just before the "toggle" `digitalWrite(pin, !digitalRead(pin))` reads them back. The toggle therefore always drives the pin HIGH. The LED is lit only on the pass where a 300 ms interval has elapsed. The model keeps this behaviour, and `BlinkStep` states it.

Behaviour worth knowing:

- The tick that ends a recovery emits `(0, 0)` with mode FORWARD_DELAY and does not evaluate the control law (Websockets_Connect_With_Arduino.py:114-119).
- The tick that starts a recovery emits `(0, 0)` with mode RECOVER_INIT (lines 124-135). The minimum recovery time is counted in seconds, not ticks. The next tick sends the recovery turn, unless it comes 0.2 s or more after the loss and sees a line. In that case the recovery ends at once with `(0, 0)` FORWARD_DELAY and no turn is sent (lines 107-119; `RecoveryExitTick`, `SkippedRecoveryTurn`).
- The recovery direction is +1 when the last steer was negative and -1 otherwise, so a last steer of 0 gives -1 (lines 132-135).
- The neutral mode before the handoff is labelled UNDEF (line 98).
- A line loss inside the handoff window starts a recovery, which reverses with throttle -10. Before the handoff time the throttle is therefore at most 0, and the mode is never FORWARD (lines 124-142).
- Only the throttle is clamped before emission (line 153). The steer is in [-100, 100] by construction, which `Step` proves.
- `timer and now < timer` treats a timer equal to `0.0` as not armed. `Pending` models this truthiness exactly (lines 140, 143).
- On the FORWARD tick both timers are cleared together, whichever delay had just completed (lines 147-150).

## Model

| member | source | states |
|---|---|---|
| LineControl.Trunc | OpenCV_With_Websockets/Websockets_Connect_With_Arduino.py:59 | `int()` on a float truncates toward zero: the result is within 1 of x, on x's side of zero |
| LineControl.Ceil | OpenCV_With_Websockets/Websockets_Connect_With_Arduino.py:66 | `math.ceil`: the least integer not below x |
| LineControl.NormError | OpenCV_With_Websockets/Websockets_Connect_With_Arduino.py:61 | the normalised error lies in [0, 1] and is below 1 exactly when 2·\|error\| < width |
| LineControl.SteerCommand | OpenCV_With_Websockets/Websockets_Connect_With_Arduino.py:59 | steer lies in [-100, 100]; it is negative exactly for a positive error and positive exactly for a negative error |
| LineControl.NominalThrottle | OpenCV_With_Websockets/Websockets_Connect_With_Arduino.py:61-68 | throttle lies in [0, 4]; it is 0 exactly when 2·\|error\| ≥ width; otherwise it is at least MIN_FORWARD_THROTTLE |
| LineControl.ComputeControl | OpenCV_With_Websockets/Websockets_Connect_With_Arduino.py:56-70 | steer lies in [-100, 100]; steer < 0 iff cx > width//2 and steer > 0 iff cx < width//2; throttle lies in [0, 4], is 0 exactly when \|cx - width//2\| ≥ width/2, and is otherwise ≥ 1 |
| LineControl.CenteredGivesFullThrottle | OpenCV_With_Websockets/Websockets_Connect_With_Arduino.py:58-68 | a centroid at width//2 gives (0, ceil(40·0.1) = 4) |
| LineControl.SteerIntegerLaw | OpenCV_With_Websockets/Websockets_Connect_With_Arduino.py:58-59 | an integer restatement: steer = -sign(e)·min(⌊15·\|e\|/2⌋, 100) |
| LineControl.SteerNonIncreasing | OpenCV_With_Websockets/Websockets_Connect_With_Arduino.py:58-59 | moving the centroid right never raises the steer |
| LineControl.ThrottleNonIncreasing | OpenCV_With_Websockets/Websockets_Connect_With_Arduino.py:61-68 | a larger \|error\| never gives a larger throttle |
| Navigator.SessionStart | OpenCV_With_Websockets/Websockets_Connect_With_Arduino.py:79-83 | a new session keeps both globals and starts not recovering, with no recovery start, no forward delay, direction +1 and a positive last steer |
| Navigator.Initial | OpenCV_With_Websockets/Websockets_Connect_With_Arduino.py:36-37 | at module load the controller is not yet autonomous and no handoff timer is armed |
| Navigator.Clamp | OpenCV_With_Websockets/Websockets_Connect_With_Arduino.py:153 | the clamped throttle lies in [lo, hi]; it equals x inside the range, hi above it and lo below it |
| Navigator.Step | OpenCV_With_Websockets/Websockets_Connect_With_Arduino.py:96-160 | through `Decide`, the branch order pre-auto, recovering, not recovering, then the clamp and the steer memory; one tick keeps the state invariant. Steer lies in [-100, 100]. Throttle lies in [-60, 40] and is either -10 or in [0, 4]. The remembered steer is the emitted one. `was_auto` never resets. Positive throttle means FORWARD and negative throttle means RECOVER. RECOVER_INIT occurs exactly when autonomous, not recovering and cx is absent. The direction changes only there, to +1 iff the last steer was negative |
| Navigator.FormatCommand | OpenCV_With_Websockets/Websockets_Connect_With_Arduino.py:156 | the serial line ends in its only newline; for values below 1000 in magnitude it is at most 10 characters |
| Navigator.Run | OpenCV_With_Websockets/Websockets_Connect_With_Arduino.py:86-160 | a run keeps the invariant, emits one command per tick and never resets `was_auto` |
| Navigator.Controller.constructor | OpenCV_With_Websockets/Websockets_Connect_With_Arduino.py:36-37 | the fields start as the globals at load and the locals at session start |
| Navigator.Controller.StartSession | OpenCV_With_Websockets/Websockets_Connect_With_Arduino.py:79-83 | the session locals are reset and the globals are kept |
| Navigator.Controller.Tick | OpenCV_With_Websockets/Websockets_Connect_With_Arduino.py:96-160 | the in-place loop body leaves exactly the state `Step` gives, emits `Step`'s command, and writes its formatted line |
| NavigatorProperties.PreAutoTick | OpenCV_With_Websockets/Websockets_Connect_With_Arduino.py:97-104 | before autonomy every tick emits (0, 0, UNDEF); `was_auto` becomes true exactly when a line is seen, and then the handoff timer is now + 0.1 |
| NavigatorProperties.RecoverInitTick | OpenCV_With_Websockets/Websockets_Connect_With_Arduino.py:124-135 | losing the centroid emits (0, 0, RECOVER_INIT), starts recovery at now, clears forward_ready, and sets the direction to +1 iff the last steer was negative |
| NavigatorProperties.RecoverTick | OpenCV_With_Websockets/Websockets_Connect_With_Arduino.py:107-123 | during the minimum time, or while no line is seen, a recovering tick emits (direction·100, -10, RECOVER) and changes only the remembered steer |
| NavigatorProperties.RecoveryExitTick | OpenCV_With_Websockets/Websockets_Connect_With_Arduino.py:114-119 | the exit tick emits (0, 0, FORWARD_DELAY), clears `recovering` and arms forward_ready = now + 0.2 |
| NavigatorProperties.FollowTick | OpenCV_With_Websockets/Websockets_Connect_With_Arduino.py:136-150 | steer comes from the control law; the handoff delay takes precedence over the forward delay; only when neither is pending is the base throttle sent with FORWARD, and both timers are then cleared |
| NavigatorProperties.PreAutoStaysNeutral | OpenCV_With_Websockets/Websockets_Connect_With_Arduino.py:100-104 | ticks that never see a line all emit (0, 0, UNDEF) and leave the controller manual |
| NavigatorProperties.RecoveryPersists | OpenCV_With_Websockets/Websockets_Connect_With_Arduino.py:107-123 | a recovery continues with the same command, start time and direction for as long as each tick is inside the minimum time or sees no line |
| NavigatorProperties.MinimumRecoveryTime | OpenCV_With_Websockets/Websockets_Connect_With_Arduino.py:107-135 | after a line loss at T, every tick before T + 0.2 emits the recovery turn away from the pre-loss steer, even if the line reappears |
| NavigatorProperties.SkippedRecoveryTurn | OpenCV_With_Websockets/Websockets_Connect_With_Arduino.py:107-135 | the minimum recovery time is counted on the clock: a line loss at 0.2 s followed by a tick at 0.45 s that sees the line emits RECOVER_INIT then FORWARD_DELAY, both (0, 0), and never the recovery turn |
| NavigatorProperties.HandoffNeverDrivesForward | OpenCV_With_Websockets/Websockets_Connect_With_Arduino.py:140-142 | before the handoff time no tick drives forward, and the handoff timer stays armed |
| NavigatorProperties.SettleHoldsThrottle | OpenCV_With_Websockets/Websockets_Connect_With_Arduino.py:140-145 | while a settle delay is pending and the line is in view, every tick holds throttle 0 in MAN2AUTO_DELAY or FORWARD_DELAY and keeps both timers |
| NavigatorProperties.FollowingIsSteady | OpenCV_With_Websockets/Websockets_Connect_With_Arduino.py:146-150 | with no delay armed and the line in view, every tick is FORWARD with exactly `compute_control`'s pair |
| NavigatorProperties.DirectionOnlyAtRecoverInit | OpenCV_With_Websockets/Websockets_Connect_With_Arduino.py:126-135 | a run with no RECOVER_INIT tick leaves the recovery direction unchanged |
| NavigatorProperties.Scenario | OpenCV_With_Websockets/Websockets_Connect_With_Arduino.py:86-160 | on a 640-pixel frame: handoff, settle, follow at (0, 4), line loss, a recovery that outlasts a reappearance 0.05 s after the loss, the exit, the forward delay, and following again |
| Decimal.NatToString | OpenCV_With_Websockets/Websockets_Connect_With_Arduino.py:156 | `str` of a natural number is a non-empty run of digits, with length bounds |
| Decimal.IntToString | OpenCV_With_Websockets/Websockets_Connect_With_Arduino.py:156 | `str` of an integer starts with '-' or a digit; values below 1000 in magnitude take at most 4 characters |
| Decimal.NatToStringRoundTrip | src/main.cpp:107 | the digits `str` writes read back as the same number |
| Decimal.NatToStringNoLeadingZero | OpenCV_With_Websockets/Websockets_Connect_With_Arduino.py:156 | `str` of a natural starts with '0' exactly when it is zero: no leading zeros |
| Decimal.DigitRunOfDigits | src/main.cpp:107 | a digit scan stops exactly at the end of the digits when a non-digit follows |
| Firmware.Constrain | src/main.cpp:108-112 | `constrain` returns lo below the range, hi above it, and x inside it |
| Firmware.CDiv | src/main.cpp:114-118 | C division agrees with floor division on non-negative operands |
| Firmware.ArduinoMap | src/main.cpp:114-118 | `map` sends inMin to outMin and inMax to outMax, and keeps in-range inputs in the output range |
| Firmware.CommandPulses | src/main.cpp:108-121 | steer pulse in [1000, 2000] with -100 → 1000, 0 → 1500 and 100 → 2000; a throttle ≥ 0 gives a pulse in [1553, 1620], a negative one [1100, 1480]; the saturation points; never a pulse in (1500, 1553) |
| Firmware.SpaceRun | src/main.cpp:107 | `%d` skips exactly the leading run of white space: every skipped character is a space and the next one is not |
| Firmware.ScanDigits | src/main.cpp:107 | a digit scan fails exactly on a non-digit start and otherwise stops before a non-digit |
| Firmware.ScanSigned | src/main.cpp:107 | a signed scan consumes at least one character and stops before a non-digit |
| Firmware.ScanInt | src/main.cpp:107 | one `%d` conversion consumes at least one character and stops before a non-digit |
| Firmware.ScanCommand | src/main.cpp:107 | `sscanf(buf, "%d,%d") == 2`: a success starts with a successful `%d` and returns its value first; without a comma there is no success. `SerialLink.PairScans` shows that two decimal numbers joined by a comma scan back to both values |
| Firmware.LineBeforeNewline | src/main.cpp:102 | `readStringUntil('\n')` returns the prefix before the first newline, which holds no newline |
| Firmware.ToCharArray | src/main.cpp:103-104 | at most 31 characters survive the copy into `buf[32]`, as a prefix, and shorter lines survive whole |
| Firmware.AutoPulses | src/main.cpp:98-123 | with no input, or a first line that does not scan, both pulses are 1500; a line that scans as two integers drives exactly `CommandPulses` of them; the pulses always stay in range and outside the deadband |
| Firmware.ManualSteer | src/main.cpp:134-138 | the steering pulse is written exactly when it is in [1000, 2000], unchanged |
| Firmware.ManualThrottle | src/main.cpp:140-151 | a write happens exactly for inputs in [1000, 2000]; the output lies in [1429, 1544]; inputs in [1425, 1540] are shifted by +4, and the two saturation points hold |
| Firmware.LoopWrites | src/main.cpp:92-154 | the mode decision `AutoMode` (mode pulse > 1500, line 93) selects the branch; in auto mode both servos get `AutoPulses`; otherwise they get the manual pass-through; every written pulse is in range |
| Firmware.Elapsed | src/main.cpp:68 | `now - last` on `unsigned long` is the elapsed time across a `millis()` wrap |
| Firmware.ChannelStep | src/main.cpp:66-88 | a channel's LED is HIGH exactly when it is active and 300 ms have elapsed; its timer resets to now on a toggle or when the channel is inactive |
| Firmware.BlinkStep | src/main.cpp:53-89 | CH7 up lights both LEDs and keeps both timers; otherwise each channel follows `ChannelStep`: HIGH exactly on the pass where it is active and 300 ms have elapsed, its timer restarted to now on that toggle or when inactive, and kept while active inside the interval |
| Firmware.ChannelLeds.constructor | src/main.cpp:28-29 | both timers start at 0 and both LEDs LOW |
| Firmware.ChannelLeds.Update | src/main.cpp:50-89 | the in-place LED update leaves exactly the state `BlinkStep` gives |
| FirmwareProperties.MapMonotone | src/main.cpp:114-118 | `map` is monotone on its input range |
| FirmwareProperties.SteerPulseLaw | src/main.cpp:108-114 | the steering pulse is 1500 + 5·constrain(steer, -100, 100) |
| FirmwareProperties.SteerPulseMonotone | src/main.cpp:108-114 | a larger steer command never gives a smaller steering pulse |
| FirmwareProperties.ThrottlePulseMonotone | src/main.cpp:109-121 | a larger throttle command never gives a smaller throttle pulse, across the sign change and the deadband lift |
| FirmwareProperties.SmallForwardCommandsShareOnePulse | src/main.cpp:115-121 | every throttle command from 0 to 13 gives the pulse 1553 |
| FirmwareProperties.ManualThrottleMonotone | src/main.cpp:143-151 | the manual throttle output is monotone in the receiver pulse |
| SerialLink.ScanIntCanonical | src/main.cpp:107 | `%d` reads back exactly the integer `str` wrote, and stops at the first non-digit |
| SerialLink.PairScans | src/main.cpp:107 | `sscanf("%d,%d")` on two decimal numbers joined by a comma gives both back |
| SerialLink.CommandLineRoundTrip | src/main.cpp:101-107 | for steer in [-100, 100] and throttle in [-60, 40], the controller's line survives `readStringUntil`, fits the 32-byte buffer and scans back to the same pair, whatever follows it on the wire |
| SerialLink.TickDrivesFirmware | src/main.cpp:101-121 | whatever a tick emits, auto mode drives exactly `CommandPulses` of it: steer pulse 1500 + 5·steer, throttle pulse 1553 for every throttle ≥ 0 and 1429 for the recovery throttle |

## Left out

- `detect_line` and the contour coverage (OpenCV image processing). The centroid and the coverage are inputs to each tick.
- Camera capture, the serial port, the websocket server, JPEG and base64 encoding, `asyncio.sleep`, overlay drawing and console prints (I/O only). The serial write is represented by the line `Tick` returns.
- The wall clock `time.time()` and `millis()` are tick parameters.
- LineControl.ComputeControl: uses exact reals, not IEEE doubles. The model does not show that the source's rounded double results agree with the exact ones at every centroid; the bounds and monotonicity lemmas are about the exact-real law.
- A zero frame width raises `ZeroDivisionError` in the source. The model requires `width > 0`, which a camera frame always has.
- Two websocket sessions running at once share the two globals. The model runs one session at a time (`StartSession` keeps the globals).
- The serial port is opened once at module load (line 13) but closed at the end of every session (line 178). Every later session therefore raises at its first `ser.write` (line 156), after that tick has already updated `was_auto` and `manual2auto_time`. `Controller.StartSession` models a later session as if the port were still open; the port's lifetime is not modelled.
- `pulseIn`, `digitalWrite`/`digitalRead`, `Servo.writeMicroseconds`, `Serial` prints and `setup()` are hardware calls. Pulses and switch readings are parameters. The LED level is the value last written.
- The manual-mode serial drain (`while (Serial.available()) Serial.read()`) only discards input. Only the first line of waiting input is consumed in auto mode; the rest stays buffered and is not modelled.
- Firmware.ScanInt: AVR `int` is 16 bits. Out-of-range digits overflow in `sscanf` and are not modelled; every value the controller sends fits.
- Firmware.ArduinoMap: Arduino's `long` arithmetic would overflow only for products beyond 2^31, far outside the values used here; the model uses unbounded integers.
- `sscanf` is modelled for `%d,%d` only: white space, an optional sign and a digit run, then a literal comma.
