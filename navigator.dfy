/**
  The per-tick decision logic of the `stream` loop: the MANUAL to AUTO handoff,
  line following, line-loss recovery and the two settle delays. `Step` is the
  transition function of the loop body; `Controller.Tick` is the loop body
  itself, over the same variables the source mutates.
*/
module Navigator {
  import opened Wrappers
  import opened Decimal
  import opened LineControl

  const REVERSE_LIMIT: int := 60
  const RECOVERY_STEER: int := 100
  const RECOVERY_THROTTLE: int := -10
  const COVERAGE_THRESHOLD: real := 0.075
  const RECOVERY_DELAY: real := 0.2
  const FORWARD_DELAY: real := 0.2
  const MANUAL2AUTO_DELAY: real := 0.1

  /** The mode label printed and drawn on each frame. */
  datatype Mode = Undef | RecoverInit | Recover | ForwardDelay | Man2AutoDelay | Forward

  /**
    Everything the loop carries from one tick to the next: the two module
    globals (`was_auto`, `manual2auto_time`) and the session locals.
  */
  datatype State = State(
    wasAuto: bool,
    manual2autoTime: Option<real>,
    recovering: bool,
    recoveryStart: Option<real>,
    forwardReady: Option<real>,
    recoverDirection: int,
    lastSteerCmd: int)
  {
    /** A recovery always has a start time; the direction is a sign; the last steer is a command. */
    predicate Inv() {
      && (recovering ==> recoveryStart.Some?)
      && (recoverDirection == 1 || recoverDirection == -1)
      && -STEER_LIMIT <= lastSteerCmd <= STEER_LIMIT
    }
  }

  /** What the line detector reports for one frame. */
  datatype Observation = Observation(cx: Option<int>, width: int, coverage: real)

  /** One loop iteration's input: the observation and the clock reading. */
  datatype Input = Input(obs: Observation, now: real)

  /** What one tick emits. */
  datatype Command = Command(steer: int, throttle: int, mode: Mode)

  /** The session locals as `stream` initialises them, with the globals given. */
  function SessionStart(wasAuto: bool, manual2autoTime: Option<real>): (s: State)
    ensures s.Inv() && !s.recovering && s.lastSteerCmd > 0
    ensures s.wasAuto == wasAuto && s.manual2autoTime == manual2autoTime
    ensures s.recoverDirection == 1 && s.recoveryStart.None? && s.forwardReady.None?
  {
    State(wasAuto, manual2autoTime, false, None, None, 1, 1)
  }

  /** The state at module load, when the first session starts. */
  function Initial(): (s: State)
    ensures s.Inv() && !s.wasAuto && s.manual2autoTime.None?
  {
    SessionStart(false, None)
  }

  /** "A line is seen": a centroid, or enough contour coverage. */
  predicate LineSeen(o: Observation) {
    o.cx.Some? || o.coverage >= COVERAGE_THRESHOLD
  }

  /**
    `timer and now < timer` in Python: the timer is armed, not the falsy 0.0,
    and still in the future.
  */
  predicate Pending(timer: Option<real>, now: real) {
    timer.Some? && timer.value != 0.0 && now < timer.value
  }

  /** `int(max(min(x, hi), lo))` on an integer. */
  function Clamp(x: int, lo: int, hi: int): (r: int)
    requires lo <= hi
    ensures lo <= r <= hi
    ensures lo <= x <= hi ==> r == x
    ensures x > hi ==> r == hi
    ensures x < lo ==> r == lo
  {
    if x > hi then hi else if x < lo then lo else x
  }

  /** The recovery turn: full lock toward the remembered direction, reversing. */
  function RecoveryCommand(s: State): Command {
    Command(s.recoverDirection * RECOVERY_STEER, RECOVERY_THROTTLE, Recover)
  }

  /**
    The decision of one tick before the throttle clamp and the steer memory,
    in the source's priority order: pre-auto, recovering, not recovering.
  */
  function Decide(s: State, o: Observation, now: real): (State, Command)
    requires s.Inv() && o.width > 0
  {
    if !s.wasAuto then
      if LineSeen(o) then
        (s.(wasAuto := true, manual2autoTime := Some(now + MANUAL2AUTO_DELAY)), Command(0, 0, Undef))
      else
        (s, Command(0, 0, Undef))
    else if s.recovering then
      if now - s.recoveryStart.value < RECOVERY_DELAY || !LineSeen(o) then
        (s, RecoveryCommand(s))
      else
        (s.(recovering := false, forwardReady := Some(now + FORWARD_DELAY)), Command(0, 0, ForwardDelay))
    else if o.cx.None? then
      (s.(recovering := true, recoveryStart := Some(now), forwardReady := None,
          recoverDirection := if s.lastSteerCmd < 0 then 1 else -1),
       Command(0, 0, RecoverInit))
    else
      var (steer, baseThrottle) := ComputeControl(o.cx.value, o.width);
      if Pending(s.manual2autoTime, now) then
        (s, Command(steer, 0, Man2AutoDelay))
      else if Pending(s.forwardReady, now) then
        (s, Command(steer, 0, ForwardDelay))
      else
        (s.(manual2autoTime := None, forwardReady := None), Command(steer, baseThrottle, Forward))
  }

  /** One full tick: decide, clamp the throttle to [-60, 40], remember the steer sent. */
  function Step(s: State, o: Observation, now: real): (r: (State, Command))
    requires s.Inv() && o.width > 0
    ensures r.0.Inv()
    ensures -STEER_LIMIT <= r.1.steer <= STEER_LIMIT
    ensures -REVERSE_LIMIT <= r.1.throttle <= MAX_FORWARD_THROTTLE
    ensures r.1.throttle == RECOVERY_THROTTLE || 0 <= r.1.throttle <= TOP_AUTO_THROTTLE
    ensures r.0.lastSteerCmd == r.1.steer
    ensures s.wasAuto ==> r.0.wasAuto
    ensures r.1.throttle > 0 ==> r.1.mode == Forward
    ensures r.1.throttle < 0 ==> r.1.mode == Recover
    ensures r.1.mode == RecoverInit <==> s.wasAuto && !s.recovering && o.cx.None?
    ensures r.0.recoverDirection ==
              if r.1.mode == RecoverInit then (if s.lastSteerCmd < 0 then 1 else -1)
              else s.recoverDirection
  {
    var (s1, c) := Decide(s, o, now);
    var throttle := Clamp(c.throttle, -REVERSE_LIMIT, MAX_FORWARD_THROTTLE);
    (s1.(lastSteerCmd := c.steer), c.(throttle := throttle))
  }

  /** The line written to the serial port: `f"{steer},{thr}\n"`. */
  function FormatCommand(steer: int, throttle: int): (line: string)
    ensures |line| >= 4 && line[|line| - 1] == '\n'
    ensures forall k :: 0 <= k < |line| - 1 ==> line[k] != '\n'
    ensures -1000 < steer < 1000 && -1000 < throttle < 1000 ==> |line| <= 10
  {
    IntToStringHasNoNewline(steer);
    IntToStringHasNoNewline(throttle);
    IntToString(steer) + "," + IntToString(throttle) + "\n"
  }

  predicate WellFormed(inputs: seq<Input>) {
    forall i :: 0 <= i < |inputs| ==> inputs[i].obs.width > 0
  }

  /** A sequence of ticks: the final state and every command emitted. */
  function Run(s: State, inputs: seq<Input>): (r: (State, seq<Command>))
    requires s.Inv() && WellFormed(inputs)
    ensures r.0.Inv() && |r.1| == |inputs|
    ensures s.wasAuto ==> r.0.wasAuto
    decreases |inputs|
  {
    if inputs == [] then (s, [])
    else
      var (s1, c) := Step(s, inputs[0].obs, inputs[0].now);
      var (s2, cs) := Run(s1, inputs[1..]);
      (s2, [c] + cs)
  }

  /** The object the loop body works on: globals and session locals as fields. */
  class Controller {
    var wasAuto: bool
    var manual2autoTime: Option<real>
    var recovering: bool
    var recoveryStart: Option<real>
    var forwardReady: Option<real>
    var recoverDirection: int
    var lastSteerCmd: int

    function Snapshot(): State
      reads this
    {
      State(wasAuto, manual2autoTime, recovering, recoveryStart, forwardReady, recoverDirection, lastSteerCmd)
    }

    predicate Valid()
      reads this
    {
      Snapshot().Inv()
    }

    /** Module load followed by the start of the first session. */
    constructor ()
      ensures Valid() && Snapshot() == Initial()
    {
      wasAuto, manual2autoTime := false, None;
      recovering, recoveryStart, forwardReady := false, None, None;
      recoverDirection, lastSteerCmd := 1, 1;
    }

    /** A new websocket session: the locals restart, the globals carry over. */
    method StartSession()
      modifies this
      ensures Valid()
      ensures Snapshot() == SessionStart(old(wasAuto), old(manual2autoTime))
    {
      recovering := false;
      recoveryStart := None;
      forwardReady := None;
      recoverDirection := 1;
      lastSteerCmd := 1;
    }

    /** One iteration of the `while True` loop, without the camera, drawing and I/O. */
    method Tick(cx: Option<int>, width: int, coverage: real, now: real)
      returns (steer: int, throttle: int, mode: Mode, line: string)
      requires Valid() && width > 0
      modifies this
      ensures Valid()
      ensures Snapshot() == Step(old(Snapshot()), Observation(cx, width, coverage), now).0
      ensures Command(steer, throttle, mode) == Step(old(Snapshot()), Observation(cx, width, coverage), now).1
      ensures line == FormatCommand(steer, throttle)
    {
      steer, throttle := 0, 0;
      mode := Undef;

      if !wasAuto {
        if cx.Some? || coverage >= COVERAGE_THRESHOLD {
          wasAuto := true;
          manual2autoTime := Some(now + MANUAL2AUTO_DELAY);
        }
      } else {
        if recovering {
          var elapsed := now - recoveryStart.value;
          if elapsed < RECOVERY_DELAY {
            steer := recoverDirection * RECOVERY_STEER;
            throttle := RECOVERY_THROTTLE;
            mode := Recover;
          } else {
            if cx.Some? || coverage >= COVERAGE_THRESHOLD {
              recovering := false;
              forwardReady := Some(now + FORWARD_DELAY);
              mode := ForwardDelay;
            } else {
              steer := recoverDirection * RECOVERY_STEER;
              throttle := RECOVERY_THROTTLE;
              mode := Recover;
            }
          }
        } else {
          if cx.None? {
            recovering := true;
            recoveryStart := Some(now);
            forwardReady := None;
            mode := RecoverInit;
            if lastSteerCmd < 0 {
              recoverDirection := 1;
            } else {
              recoverDirection := -1;
            }
          } else {
            var (steerCmd, baseThrottle) := ComputeControl(cx.value, width);
            steer := steerCmd;
            if manual2autoTime.Some? && manual2autoTime.value != 0.0 && now < manual2autoTime.value {
              throttle := 0;
              mode := Man2AutoDelay;
            } else if forwardReady.Some? && forwardReady.value != 0.0 && now < forwardReady.value {
              throttle := 0;
              mode := ForwardDelay;
            } else {
              throttle := baseThrottle;
              manual2autoTime := None;
              forwardReady := None;
              mode := Forward;
            }
          }
        }
      }

      throttle := Clamp(throttle, -REVERSE_LIMIT, MAX_FORWARD_THROTTLE);
      line := FormatCommand(steer, throttle);
      lastSteerCmd := steer;
    }
  }
}
