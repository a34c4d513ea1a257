/**
  What the `stream` loop promises, one tick at a time and over runs of ticks.
*/
module NavigatorProperties {
  import opened Wrappers
  import opened LineControl
  import opened Navigator

  // ----- One tick, branch by branch -----

  /** Before autonomy, every tick is neutral; the first tick that sees a line arms the handoff timer. */
  lemma PreAutoTick(s: State, o: Observation, now: real)
    requires s.Inv() && o.width > 0 && !s.wasAuto
    ensures var (s', c) := Step(s, o, now);
            && c == Command(0, 0, Undef)
            && (s'.wasAuto <==> LineSeen(o))
            && s'.manual2autoTime == (if LineSeen(o) then Some(now + MANUAL2AUTO_DELAY) else s.manual2autoTime)
            && s'.recovering == s.recovering && s'.forwardReady == s.forwardReady
  {
  }

  /** Losing the centroid while following starts a recovery, turning away from the last steer. */
  lemma RecoverInitTick(s: State, o: Observation, now: real)
    requires s.Inv() && o.width > 0 && s.wasAuto && !s.recovering && o.cx.None?
    ensures var (s', c) := Step(s, o, now);
            && c == Command(0, 0, RecoverInit)
            && s'.recovering && s'.recoveryStart == Some(now) && s'.forwardReady.None?
            && s'.recoverDirection == (if s.lastSteerCmd < 0 then 1 else -1)
            && s'.manual2autoTime == s.manual2autoTime && s'.lastSteerCmd == 0
  {
  }

  /**
    While recovering, the turn continues during the first RECOVERY_DELAY
    seconds whatever is seen, and afterwards until a line is seen.
  */
  lemma RecoverTick(s: State, o: Observation, now: real)
    requires s.Inv() && o.width > 0 && s.wasAuto && s.recovering
    requires now - s.recoveryStart.value < RECOVERY_DELAY || !LineSeen(o)
    ensures var (s', c) := Step(s, o, now);
            && c == Command(s.recoverDirection * RECOVERY_STEER, RECOVERY_THROTTLE, Recover)
            && s' == s.(lastSteerCmd := c.steer)
  {
  }

  /**
    The tick that ends a recovery emits a neutral command and arms the forward
    delay; it does not evaluate the control law in the same tick.
  */
  lemma RecoveryExitTick(s: State, o: Observation, now: real)
    requires s.Inv() && o.width > 0 && s.wasAuto && s.recovering
    requires now - s.recoveryStart.value >= RECOVERY_DELAY && LineSeen(o)
    ensures var (s', c) := Step(s, o, now);
            && c == Command(0, 0, ForwardDelay)
            && !s'.recovering && s'.forwardReady == Some(now + FORWARD_DELAY)
            && s'.recoverDirection == s.recoverDirection && s'.lastSteerCmd == 0
  {
  }

  /**
    Following a visible centroid: the steer comes from the control law; the
    handoff delay is checked before the forward delay; only when neither is
    pending does the nominal throttle go out, and then both timers are cleared.
  */
  lemma FollowTick(s: State, o: Observation, now: real)
    requires s.Inv() && o.width > 0 && s.wasAuto && !s.recovering && o.cx.Some?
    ensures var (s', c) := Step(s, o, now);
            var (steer, baseThrottle) := ComputeControl(o.cx.value, o.width);
            && c.steer == steer && !s'.recovering
            && (Pending(s.manual2autoTime, now) ==> c.throttle == 0 && c.mode == Man2AutoDelay && s'.manual2autoTime == s.manual2autoTime)
            && (!Pending(s.manual2autoTime, now) && Pending(s.forwardReady, now) ==>
                  c.throttle == 0 && c.mode == ForwardDelay && s'.forwardReady == s.forwardReady)
            && (!Pending(s.manual2autoTime, now) && !Pending(s.forwardReady, now) ==>
                  c == Command(steer, baseThrottle, Forward) && s'.manual2autoTime.None? && s'.forwardReady.None?)
  {
  }

  // ----- Runs of ticks -----

  /** Ticks that never see a line keep the vehicle neutral and the controller in manual. */
  lemma {:induction false} PreAutoStaysNeutral(s: State, inputs: seq<Input>)
    requires s.Inv() && WellFormed(inputs) && !s.wasAuto
    requires forall i :: 0 <= i < |inputs| ==> !LineSeen(inputs[i].obs)
    ensures var r := Run(s, inputs);
            && (forall i :: 0 <= i < |inputs| ==> r.1[i] == Command(0, 0, Undef))
            && !r.0.wasAuto && r.0.manual2autoTime == s.manual2autoTime
    decreases |inputs|
  {
    if inputs != [] {
      var s1 := Step(s, inputs[0].obs, inputs[0].now).0;
      PreAutoStaysNeutral(s1, inputs[1..]);
    }
  }

  /**
    Once recovering, every tick emits the same recovery turn for as long as
    each tick is either within RECOVERY_DELAY of the start or sees no line;
    the start time and the direction do not change meanwhile.
  */
  lemma {:induction false} RecoveryPersists(s: State, inputs: seq<Input>)
    requires s.Inv() && WellFormed(inputs) && s.wasAuto && s.recovering
    requires forall i :: 0 <= i < |inputs| ==>
               inputs[i].now - s.recoveryStart.value < RECOVERY_DELAY || !LineSeen(inputs[i].obs)
    ensures var r := Run(s, inputs);
            && (forall i :: 0 <= i < |inputs| ==> r.1[i] == RecoveryCommand(s))
            && r.0.recovering && r.0.recoveryStart == s.recoveryStart
            && r.0.recoverDirection == s.recoverDirection
    decreases |inputs|
  {
    if inputs != [] {
      var s1 := Step(s, inputs[0].obs, inputs[0].now).0;
      assert RecoveryCommand(s1) == RecoveryCommand(s);
      RecoveryPersists(s1, inputs[1..]);
    }
  }

  /**
    Minimum recovery time and direction memory: a tick at time T that loses the
    centroid starts a recovery; every later tick before T + RECOVERY_DELAY turns
    toward +1 exactly when the steer before the loss was negative, even if the
    line reappears.
  */
  lemma MinimumRecoveryTime(s: State, o: Observation, t: real, later: seq<Input>)
    requires s.Inv() && o.width > 0 && WellFormed(later)
    requires s.wasAuto && !s.recovering && o.cx.None?
    requires forall i :: 0 <= i < |later| ==> later[i].now < t + RECOVERY_DELAY
    ensures var cs := Run(s, [Input(o, t)] + later).1;
            var dir := if s.lastSteerCmd < 0 then 1 else -1;
            && cs[0] == Command(0, 0, RecoverInit)
            && forall i :: 1 <= i < |cs| ==> cs[i] == Command(dir * RECOVERY_STEER, RECOVERY_THROTTLE, Recover)
  {
    var inputs := [Input(o, t)] + later;
    assert WellFormed(inputs);
    var s1 := Step(s, o, t).0;
    assert inputs[1..] == later;
    RecoveryPersists(s1, later);
  }

  /**
    After the handoff is armed, no tick before the handoff time drives forward,
    whatever the camera sees, and the handoff timer stays armed.
  */
  lemma {:induction false} HandoffNeverDrivesForward(s: State, inputs: seq<Input>)
    requires s.Inv() && WellFormed(inputs) && s.wasAuto
    requires s.manual2autoTime.Some? && s.manual2autoTime.value != 0.0
    requires forall i :: 0 <= i < |inputs| ==> inputs[i].now < s.manual2autoTime.value
    ensures var r := Run(s, inputs);
            && (forall i :: 0 <= i < |inputs| ==> r.1[i].throttle <= 0 && r.1[i].mode != Forward)
            && r.0.manual2autoTime == s.manual2autoTime
    decreases |inputs|
  {
    if inputs != [] {
      var s1 := Step(s, inputs[0].obs, inputs[0].now).0;
      HandoffNeverDrivesForward(s1, inputs[1..]);
    }
  }

  /**
    With the line in view and a settle delay pending at every tick, the
    vehicle holds (throttle 0) in MAN2AUTO_DELAY or FORWARD_DELAY and the
    timers stay as they are.
  */
  lemma {:induction false} SettleHoldsThrottle(s: State, inputs: seq<Input>)
    requires s.Inv() && WellFormed(inputs) && s.wasAuto && !s.recovering
    requires forall i :: 0 <= i < |inputs| ==> inputs[i].obs.cx.Some?
    requires forall i :: 0 <= i < |inputs| ==>
               Pending(s.manual2autoTime, inputs[i].now) || Pending(s.forwardReady, inputs[i].now)
    ensures var r := Run(s, inputs);
            && (forall i :: 0 <= i < |inputs| ==>
                  r.1[i].throttle == 0 && (r.1[i].mode == Man2AutoDelay || r.1[i].mode == ForwardDelay))
            && !r.0.recovering
            && r.0.manual2autoTime == s.manual2autoTime && r.0.forwardReady == s.forwardReady
    decreases |inputs|
  {
    if inputs != [] {
      var s1 := Step(s, inputs[0].obs, inputs[0].now).0;
      SettleHoldsThrottle(s1, inputs[1..]);
    }
  }

  /**
    Steady following: with no delay armed and the line always in view, every
    tick is FORWARD with exactly the control law's steer and throttle.
  */
  lemma {:induction false} FollowingIsSteady(s: State, inputs: seq<Input>)
    requires s.Inv() && WellFormed(inputs) && s.wasAuto && !s.recovering
    requires s.manual2autoTime.None? && s.forwardReady.None?
    requires forall i :: 0 <= i < |inputs| ==> inputs[i].obs.cx.Some?
    ensures var r := Run(s, inputs);
            && (forall i :: 0 <= i < |inputs| ==>
                  var cc := ComputeControl(inputs[i].obs.cx.value, inputs[i].obs.width);
                  r.1[i] == Command(cc.0, cc.1, Forward))
            && !r.0.recovering && r.0.manual2autoTime.None? && r.0.forwardReady.None?
    decreases |inputs|
  {
    if inputs != [] {
      var s1 := Step(s, inputs[0].obs, inputs[0].now).0;
      FollowingIsSteady(s1, inputs[1..]);
    }
  }

  /** The recovery direction changes only on a RECOVER_INIT tick. */
  lemma {:induction false} DirectionOnlyAtRecoverInit(s: State, inputs: seq<Input>)
    requires s.Inv() && WellFormed(inputs)
    requires forall i :: 0 <= i < |inputs| ==> Run(s, inputs).1[i].mode != RecoverInit
    ensures Run(s, inputs).0.recoverDirection == s.recoverDirection
    decreases |inputs|
  {
    if inputs != [] {
      var s1 := Step(s, inputs[0].obs, inputs[0].now).0;
      var r1 := Run(s1, inputs[1..]);
      forall i | 0 <= i < |inputs[1..]|
        ensures r1.1[i].mode != RecoverInit
      {
        assert Run(s, inputs).1[i + 1] == r1.1[i];
      }
      assert Run(s, inputs).1[0].mode != RecoverInit;
      DirectionOnlyAtRecoverInit(s1, inputs[1..]);
    }
  }

  /**
    The minimum recovery time is measured on the clock: when the tick after a
    line loss comes RECOVERY_DELAY or more later and sees the line, the
    recovery ends there and no recovery turn is ever sent.
  */
  lemma SkippedRecoveryTurn()
    ensures var seen := Observation(Some(320), 640, 0.3);
            var lost := Observation(None, 640, 0.0);
            var s := State(true, None, false, None, None, 1, 0);
            Run(s, [Input(lost, 0.2), Input(seen, 0.45)]).1 ==
              [Command(0, 0, RecoverInit), Command(0, 0, ForwardDelay)]
  {
    var seen := Observation(Some(320), 640, 0.3);
    var lost := Observation(None, 640, 0.0);
    var s := State(true, None, false, None, None, 1, 0);
    var s1 := State(true, None, true, Some(0.2), None, -1, 0);
    assert Step(s, lost, 0.2).0 == s1;
    assert Step(s1, seen, 0.45).1 == Command(0, 0, ForwardDelay);
    RunCons(s1, Input(seen, 0.45), []);
    assert [Input(seen, 0.45)] + [] == [Input(seen, 0.45)];
    RunCons(s, Input(lost, 0.2), [Input(seen, 0.45)]);
    assert [Input(lost, 0.2)] + [Input(seen, 0.45)] == [Input(lost, 0.2), Input(seen, 0.45)];
  }

  /** The first half of the worked run below: handoff, settle, follow, line lost. */
  lemma ScenarioHandoff()
    ensures var seen := Observation(Some(320), 640, 0.3);
            var lost := Observation(None, 640, 0.0);
            var s1 := State(true, Some(0.1), false, None, None, 1, 0);
            var s3 := State(true, None, false, None, None, 1, 0);
            && Step(Initial(), seen, 0.0) == (s1, Command(0, 0, Undef))
            && Step(s1, seen, 0.05) == (s1, Command(0, 0, Man2AutoDelay))
            && Step(s1, seen, 0.15) == (s3, Command(0, 4, Forward))
            && Step(s3, lost, 0.2) == (State(true, None, true, Some(0.2), None, -1, 0), Command(0, 0, RecoverInit))
  {
    CenteredGivesFullThrottle(320, 640);
  }

  /** The second half: a reappearance too early to end recovery, the exit, the forward delay. */
  lemma ScenarioRecovery()
    ensures var seen := Observation(Some(320), 640, 0.3);
            var s4 := State(true, None, true, Some(0.2), None, -1, 0);
            var s6 := State(true, None, false, Some(0.2), Some(0.65), -1, 0);
            && Step(s4, seen, 0.25) == (s4.(lastSteerCmd := -100), Command(-100, -10, Recover))
            && Step(s4.(lastSteerCmd := -100), seen, 0.45) == (s6, Command(0, 0, ForwardDelay))
            && Step(s6, seen, 0.5) == (s6, Command(0, 0, ForwardDelay))
            && Step(s6, seen, 0.7) == (State(true, None, false, Some(0.2), None, -1, 0), Command(0, 4, Forward))
  {
    CenteredGivesFullThrottle(320, 640);
  }

  /** The last four ticks of the worked run below, from the start of the recovery. */
  lemma ScenarioTail()
    ensures var seen := Observation(Some(320), 640, 0.3);
            var s4 := State(true, None, true, Some(0.2), None, -1, 0);
            WellFormed([Input(seen, 0.25), Input(seen, 0.45), Input(seen, 0.5), Input(seen, 0.7)])
            && Run(s4, [Input(seen, 0.25), Input(seen, 0.45), Input(seen, 0.5), Input(seen, 0.7)]).1
               == [Command(-100, -10, Recover), Command(0, 0, ForwardDelay),
                   Command(0, 0, ForwardDelay), Command(0, 4, Forward)]
  {
    var seen := Observation(Some(320), 640, 0.3);
    ScenarioRecovery();
    var s4 := State(true, None, true, Some(0.2), None, -1, 0);
    var s5 := s4.(lastSteerCmd := -100);
    var s6 := State(true, None, false, Some(0.2), Some(0.65), -1, 0);
    var t7 := [Input(seen, 0.7)];
    var t6 := [Input(seen, 0.5)] + t7;
    var t5 := [Input(seen, 0.45)] + t6;
    var t4 := [Input(seen, 0.25)] + t5;
    RunCons(s6, Input(seen, 0.7), []);
    RunCons(s6, Input(seen, 0.5), t7);
    RunCons(s5, Input(seen, 0.45), t6);
    RunCons(s4, Input(seen, 0.25), t5);
    assert t7 == [Input(seen, 0.7)] + [];
    var s8 := State(true, None, false, Some(0.2), None, -1, 0);
    assert Run(s8, []).1 == [];
    var c7 := [Command(0, 4, Forward)];
    assert Run(s6, t7).1 == c7;
    var c6 := [Command(0, 0, ForwardDelay)] + c7;
    assert Run(s6, t6).1 == c6;
    var c5 := [Command(0, 0, ForwardDelay)] + c6;
    assert Run(s5, t5).1 == c5;
    assert Run(s4, t4).1 == [Command(-100, -10, Recover)] + c5;
    assert t4 == [Input(seen, 0.25), Input(seen, 0.45), Input(seen, 0.5), Input(seen, 0.7)];
  }

  /**
    A worked run on a 640-pixel frame: handoff, settle, follow, lose the line,
    a recovery that outlasts a quick reappearance, the forward delay, and
    following again.
  */
  lemma Scenario()
    ensures var seen := Observation(Some(320), 640, 0.3);
            var lost := Observation(None, 640, 0.0);
            Run(Initial(), [Input(seen, 0.0), Input(seen, 0.05), Input(seen, 0.15), Input(lost, 0.2),
                            Input(seen, 0.25), Input(seen, 0.45), Input(seen, 0.5), Input(seen, 0.7)]).1
            == [Command(0, 0, Undef), Command(0, 0, Man2AutoDelay), Command(0, 4, Forward),
                Command(0, 0, RecoverInit), Command(-100, -10, Recover), Command(0, 0, ForwardDelay),
                Command(0, 0, ForwardDelay), Command(0, 4, Forward)]
  {
    var seen := Observation(Some(320), 640, 0.3);
    var lost := Observation(None, 640, 0.0);
    ScenarioHandoff();
    ScenarioTail();
    var s1 := State(true, Some(0.1), false, None, None, 1, 0);
    var s3 := State(true, None, false, None, None, 1, 0);
    var s4 := State(true, None, true, Some(0.2), None, -1, 0);
    var t4 := [Input(seen, 0.25), Input(seen, 0.45), Input(seen, 0.5), Input(seen, 0.7)];
    var t3 := [Input(lost, 0.2)] + t4;
    var t2 := [Input(seen, 0.15)] + t3;
    var t1 := [Input(seen, 0.05)] + t2;
    var t0 := [Input(seen, 0.0)] + t1;
    RunCons(s3, Input(lost, 0.2), t4);
    RunCons(s1, Input(seen, 0.15), t3);
    RunCons(s1, Input(seen, 0.05), t2);
    RunCons(Initial(), Input(seen, 0.0), t1);
    var c4 := [Command(-100, -10, Recover), Command(0, 0, ForwardDelay),
               Command(0, 0, ForwardDelay), Command(0, 4, Forward)];
    var c3 := [Command(0, 0, RecoverInit)] + c4;
    assert Run(s3, t3).1 == c3;
    var c2 := [Command(0, 4, Forward)] + c3;
    assert Run(s1, t2).1 == c2;
    var c1 := [Command(0, 0, Man2AutoDelay)] + c2;
    assert Run(s1, t1).1 == c1;
    assert Run(Initial(), t0).1 == [Command(0, 0, Undef)] + c1;
    assert t0 == [Input(seen, 0.0), Input(seen, 0.05), Input(seen, 0.15), Input(lost, 0.2),
                  Input(seen, 0.25), Input(seen, 0.45), Input(seen, 0.5), Input(seen, 0.7)];
  }

  /** One tick followed by the rest of a run. */
  lemma RunCons(s: State, first: Input, rest: seq<Input>)
    requires s.Inv() && first.obs.width > 0 && WellFormed(rest)
    ensures WellFormed([first] + rest)
    ensures var (s1, c) := Step(s, first.obs, first.now);
            Run(s, [first] + rest) == (Run(s1, rest).0, [c] + Run(s1, rest).1)
  {
    assert ([first] + rest)[1..] == rest;
  }
}
