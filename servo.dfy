/**
 * The servo motion engine (src/servo.cpp): one PCA9685 output channel with
 * calibration data, a `running` guard, a target and a direction, and a ramp
 * that moves the angle toward the target by at most speed * elapsed time per
 * step without ever passing it. Angles and times are reals; the steady clock
 * is read through parameters; the detached thread is an ordinary loop over the
 * clock readings it would take.
 */
module ServoMotion {
  import opened Platform

  /**
   * The channel-level calls a servo makes on the controller it shares with
   * the other joints (declared in include/pca9685.h; their bodies are not
   * part of this model, so each call is recorded, in order).
   */
  datatype ChannelCommand =
    | SwitchOff(channel: byte)
    | SwitchOn(channel: byte)
    | SetOnTime(channel: byte, ticks: int)
    | SetOffTime(channel: byte, ticks: int)

  /** The shared PCA9685 as seen by the servos: the calls it received. */
  class PwmChannels {
    var commands: seq<ChannelCommand>

    constructor ()
      ensures commands == []
    {
      commands := [];
    }
  }

  // ---------------------------------------------------------------------------
  // Pure parts of the engine

  /** std::clamp(v, lo, hi), defined only for lo <= hi. */
  function Clamp(v: real, lo: real, hi: real): (r: real)
    requires lo <= hi
    ensures lo <= r <= hi
    ensures lo <= v <= hi ==> r == v
  {
    if v < lo then lo else if hi < v then hi else v
  }

  /** The clamp bounds of a step are ordered: [0, target] clockwise, [target, maxAngle] otherwise. */
  predicate ClampDefined(target: real, clockwise: bool, maxAngle: real) {
    if clockwise then 0.0 <= target else target <= maxAngle
  }

  /** The angle lies between the clamp bound behind it and the target. */
  predicate OnCourse(angle: real, target: real, clockwise: bool, maxAngle: real) {
    if clockwise then 0.0 <= angle <= target else target <= angle <= maxAngle
  }

  /** How far the angle still is from the target, in the direction of travel. */
  function Remaining(angle: real, target: real, clockwise: bool): real {
    if clockwise then target - angle else angle - target
  }

  /**
   * One ramp step by the angular increment `delta` (elapsed seconds times
   * speed): up and clamped to [0, target] when clockwise, down and clamped to
   * [target, maxAngle] otherwise.
   */
  function StepAngle(current: real, target: real, clockwise: bool, delta: real, maxAngle: real): (next: real)
    requires ClampDefined(target, clockwise, maxAngle)
    ensures OnCourse(next, target, clockwise, maxAngle)
  {
    if clockwise then Clamp(current + delta, 0.0, target)
    else Clamp(current - delta, target, maxAngle)
  }

  /**
   * A step from on course with a non-negative increment never passes the
   * target and never moves away from it: it either lands on the target or
   * covers exactly the increment. An increment at least the remaining
   * distance lands on the target.
   */
  lemma StepBounds(current: real, target: real, clockwise: bool, delta: real, maxAngle: real)
    requires ClampDefined(target, clockwise, maxAngle)
    requires OnCourse(current, target, clockwise, maxAngle) && delta >= 0.0
    ensures var next := StepAngle(current, target, clockwise, delta, maxAngle);
      && OnCourse(next, target, clockwise, maxAngle)
      && (clockwise ==> current <= next <= target)
      && (!clockwise ==> target <= next <= current)
      && (next == target || Remaining(next, target, clockwise) == Remaining(current, target, clockwise) - delta)
      && (delta >= Remaining(current, target, clockwise) ==> next == target)
  {
  }

  /**
   * C's round(): the nearest integer, halfway cases away from zero. So it is
   * within half of its argument, a tie goes up for non-negative arguments and
   * down for negative ones, and it keeps the sign.
   */
  function Round(x: real): (r: int)
    ensures x >= 0.0 ==> x - 0.5 < r as real <= x + 0.5 && r >= 0
    ensures x < 0.0 ==> x - 0.5 <= r as real < x + 0.5 && r <= 0
  {
    if x >= 0.0 then (x + 0.5).Floor else -((-x + 0.5).Floor)
  }

  /** Pulse width in microseconds for an angle: slope * angle + minPulse. */
  function PulseWidth(slope: real, minPulse: real, angle: real): (width: real)
    ensures slope >= 0.0 && angle >= 0.0 ==> width >= minPulse
  {
    slope * angle + minPulse
  }

  /** The off-tick count setPosition sends: clamp, map to a pulse width, divide by the tick length. */
  function OffTicks(slope: real, minPulse: real, stepSize: real, maxAngle: real, angle: real): (ticks: int)
    requires stepSize > 0.0 && maxAngle >= 0.0
    ensures var width := PulseWidth(slope, minPulse, Clamp(angle, 0.0, maxAngle));
      width / stepSize - 0.5 <= ticks as real <= width / stepSize + 0.5
  {
    Round(PulseWidth(slope, minPulse, Clamp(angle, 0.0, maxAngle)) / stepSize)
  }

  /**
   * With the constructor's slope, the clamped angle range [0, maxAngle] maps
   * onto the pulse range: 0 (and below) to minPulse, maxAngle (and above) to
   * maxPulse, everything between to a width between the two, and the off-tick
   * count is within half a tick of width / stepSize.
   */
  lemma PulseRange(minPulse: real, maxPulse: real, maxAngle: real, stepSize: real, angle: real)
    requires maxAngle > 0.0 && stepSize > 0.0 && minPulse <= maxPulse
    ensures var slope := (maxPulse - minPulse) / maxAngle;
            var width := PulseWidth(slope, minPulse, Clamp(angle, 0.0, maxAngle));
      && (angle <= 0.0 ==> width == minPulse)
      && (angle >= maxAngle ==> width == maxPulse)
      && minPulse <= width <= maxPulse
      && width / stepSize - 0.5 <= OffTicks(slope, minPulse, stepSize, maxAngle, angle) as real <= width / stepSize + 0.5
  {
    var slope := (maxPulse - minPulse) / maxAngle;
    var a := Clamp(angle, 0.0, maxAngle);
    assert slope * maxAngle == maxPulse - minPulse;
    assert slope >= 0.0;
    assert 0.0 <= slope * a <= slope * maxAngle by {
      assert slope * (maxAngle - a) >= 0.0;
    }
  }

  /** The angle covered between two clock readings at `speed` degrees per second. */
  function Increment(previous: real, reading: real, speed: real): real {
    (reading - previous) * speed
  }

  /**
   * The angular increments of a ramp: for each clock reading, the time since
   * the reading before it (`start` for the first) times the speed.
   */
  function Deltas(start: real, clock: seq<real>, speed: real): (d: seq<real>)
    ensures |d| == |clock|
    decreases |clock|
  {
    if clock == [] then []
    else
      var n := |clock|;
      Deltas(start, clock[..n - 1], speed) + [Increment(if n == 1 then start else clock[n - 2], clock[n - 1], speed)]
  }

  /**
   * Increment k of a ramp is the angle covered between clock readings k - 1
   * and k, the first one measured from the start of the step clock.
   */
  lemma {:induction false} DeltasAt(start: real, clock: seq<real>, speed: real, k: nat)
    requires k < |clock|
    ensures Deltas(start, clock, speed)[k] == Increment(if k == 0 then start else clock[k - 1], clock[k], speed)
    decreases |clock|
  {
    var n := |clock|;
    if k < n - 1 {
      DeltasAt(start, clock[..n - 1], speed, k);
    }
  }

  /** The angle after the angles of a trace, starting from `start`. */
  function AngleAfter(start: real, trace: seq<real>): real {
    if trace == [] then start else trace[|trace| - 1]
  }

  /**
   * The angles a ramp goes through: one step per increment, as long as the
   * angle has not reached the target (the loop checks before each step).
   */
  function RampTrace(start: real, target: real, clockwise: bool, maxAngle: real, deltas: seq<real>): (trace: seq<real>)
    requires ClampDefined(target, clockwise, maxAngle)
    ensures |trace| <= |deltas|
    decreases |deltas|
  {
    if deltas == [] then []
    else
      var before := RampTrace(start, target, clockwise, maxAngle, deltas[..|deltas| - 1]);
      var current := AngleAfter(start, before);
      if current == target then before
      else before + [StepAngle(current, target, clockwise, deltas[|deltas| - 1], maxAngle)]
  }

  /**
   * Every angle of a ramp is on course, only the last can be the target, and
   * the ramp uses fewer increments than it is given only once it has arrived.
   */
  lemma {:induction false} RampTraceShape(start: real, target: real, clockwise: bool, maxAngle: real, deltas: seq<real>)
    requires ClampDefined(target, clockwise, maxAngle)
    ensures var trace := RampTrace(start, target, clockwise, maxAngle, deltas);
      && (forall k :: 0 <= k < |trace| ==> OnCourse(trace[k], target, clockwise, maxAngle))
      && (forall k :: 0 <= k < |trace| - 1 ==> trace[k] != target)
      && (|trace| < |deltas| ==> AngleAfter(start, trace) == target)
    decreases |deltas|
  {
    if deltas != [] {
      RampTraceShape(start, target, clockwise, maxAngle, deltas[..|deltas| - 1]);
    }
  }

  /** One more clock reading adds one increment: the time since the reading before it. */
  lemma DeltasSnoc(start: real, clock: seq<real>, i: nat, speed: real)
    requires i < |clock|
    ensures Deltas(start, clock[..i + 1], speed) ==
              Deltas(start, clock[..i], speed) + [Increment(if i == 0 then start else clock[i - 1], clock[i], speed)]
  {
    assert clock[..i + 1][..i] == clock[..i];
  }

  /** Before arrival, one more increment adds exactly one step to the ramp. */
  lemma RampTraceSnoc(start: real, target: real, clockwise: bool, maxAngle: real, deltas: seq<real>, delta: real)
    requires ClampDefined(target, clockwise, maxAngle)
    requires AngleAfter(start, RampTrace(start, target, clockwise, maxAngle, deltas)) != target
    ensures var before := RampTrace(start, target, clockwise, maxAngle, deltas);
      RampTrace(start, target, clockwise, maxAngle, deltas + [delta]) ==
        before + [StepAngle(AngleAfter(start, before), target, clockwise, delta, maxAngle)]
  {
    assert (deltas + [delta])[..|deltas|] == deltas;
  }

  /** One more clock reading before arrival adds exactly one step to the ramp. */
  lemma TraceStep(start: real, target: real, clockwise: bool, maxAngle: real, t0: real, clock: seq<real>, i: nat, speed: real)
    requires ClampDefined(target, clockwise, maxAngle) && i < |clock|
    requires AngleAfter(start, RampTrace(start, target, clockwise, maxAngle, Deltas(t0, clock[..i], speed))) != target
    ensures var before := RampTrace(start, target, clockwise, maxAngle, Deltas(t0, clock[..i], speed));
      RampTrace(start, target, clockwise, maxAngle, Deltas(t0, clock[..i + 1], speed)) ==
        before + [StepAngle(AngleAfter(start, before), target, clockwise,
                            Increment(if i == 0 then t0 else clock[i - 1], clock[i], speed), maxAngle)]
  {
    DeltasSnoc(t0, clock, i, speed);
    RampTraceSnoc(start, target, clockwise, maxAngle, Deltas(t0, clock[..i], speed),
                  Increment(if i == 0 then t0 else clock[i - 1], clock[i], speed));
  }

  /** The sum of the increments. */
  function Sum(deltas: seq<real>): real
    decreases |deltas|
  {
    if deltas == [] then 0.0 else Sum(deltas[..|deltas| - 1]) + deltas[|deltas| - 1]
  }

  /** Increments that are each at least `eps`. */
  predicate AtLeast(deltas: seq<real>, eps: real) {
    forall i :: 0 <= i < |deltas| ==> deltas[i] >= eps
  }

  /**
   * A ramp that starts on course with non-negative increments stays on
   * course, never passes the target nor moves away from it, and until it
   * arrives it has covered exactly the sum of the increments.
   */
  lemma {:induction false} RampProgress(start: real, target: real, clockwise: bool, maxAngle: real, deltas: seq<real>)
    requires ClampDefined(target, clockwise, maxAngle)
    requires OnCourse(start, target, clockwise, maxAngle)
    requires AtLeast(deltas, 0.0)
    ensures var angle := AngleAfter(start, RampTrace(start, target, clockwise, maxAngle, deltas));
      && OnCourse(angle, target, clockwise, maxAngle)
      && 0.0 <= Remaining(angle, target, clockwise) <= Remaining(start, target, clockwise)
      && (angle == target || Remaining(angle, target, clockwise) == Remaining(start, target, clockwise) - Sum(deltas))
    decreases |deltas|
  {
    if deltas != [] {
      var n := |deltas|;
      var prefix := deltas[..n - 1];
      RampProgress(start, target, clockwise, maxAngle, prefix);
      var current := AngleAfter(start, RampTrace(start, target, clockwise, maxAngle, prefix));
      if current != target {
        StepBounds(current, target, clockwise, deltas[n - 1], maxAngle);
      }
    }
  }

  /** Increments of at least eps add up to at least n * eps. */
  lemma {:induction false} SumAtLeast(deltas: seq<real>, eps: real)
    requires AtLeast(deltas, eps)
    ensures Sum(deltas) >= |deltas| as real * eps
    decreases |deltas|
  {
    if deltas != [] {
      var n := |deltas|;
      SumAtLeast(deltas[..n - 1], eps);
      assert (n - 1) as real * eps + eps == n as real * eps;
    }
  }

  /**
   * Termination of the ramp: once non-negative increments add up to the
   * distance, the clamp has landed on the target exactly.
   */
  lemma RampArrives(start: real, target: real, clockwise: bool, maxAngle: real, deltas: seq<real>)
    requires ClampDefined(target, clockwise, maxAngle)
    requires OnCourse(start, target, clockwise, maxAngle)
    requires AtLeast(deltas, 0.0) && Sum(deltas) >= Remaining(start, target, clockwise)
    ensures AngleAfter(start, RampTrace(start, target, clockwise, maxAngle, deltas)) == target
  {
    RampProgress(start, target, clockwise, maxAngle, deltas);
  }

  /**
   * In particular, when every step covers at least eps > 0, the ramp has
   * arrived after any n steps with n * eps at least the distance.
   */
  lemma RampArrivesWithin(start: real, target: real, clockwise: bool, maxAngle: real, deltas: seq<real>, eps: real)
    requires ClampDefined(target, clockwise, maxAngle)
    requires OnCourse(start, target, clockwise, maxAngle)
    requires eps > 0.0 && AtLeast(deltas, eps)
    requires |deltas| as real * eps >= Remaining(start, target, clockwise)
    ensures AngleAfter(start, RampTrace(start, target, clockwise, maxAngle, deltas)) == target
  {
    SumAtLeast(deltas, eps);
    RampArrives(start, target, clockwise, maxAngle, deltas);
  }

  /**
   * moveToPosition's choice of direction puts an angle inside [0, maxAngle]
   * on course toward any target: clockwise (up) when the target is not below
   * it, counter-clockwise (down) otherwise, with ordered clamp bounds.
   */
  lemma MoveStartsOnCourse(current: real, target: real, maxAngle: real)
    requires 0.0 <= current <= maxAngle
    ensures var clockwise := !(target < current);
      && ClampDefined(target, clockwise, maxAngle)
      && OnCourse(current, target, clockwise, maxAngle)
      && Remaining(current, target, clockwise) >= 0.0
  {
  }

  /** A move to the angle the servo is already at takes no step at all. */
  lemma {:induction false} RampAtTarget(target: real, clockwise: bool, maxAngle: real, deltas: seq<real>)
    requires ClampDefined(target, clockwise, maxAngle)
    ensures RampTrace(target, target, clockwise, maxAngle, deltas) == []
    decreases |deltas|
  {
    if deltas != [] {
      RampAtTarget(target, clockwise, maxAngle, deltas[..|deltas| - 1]);
    }
  }

  // ---------------------------------------------------------------------------
  // The servo

  class Servo {
    const pca: PwmChannels
    const pcaChannel: byte
    const pwmFreq: byte
    const minPulse: uint16
    const maxPulse: uint16
    const maxAngle: real
    var rotationSpeed: real
    var running: bool
    const angleToPwmSlope: real   // microseconds of pulse per degree
    const stepSize: real          // microseconds per PWM tick
    const stepPeriod: real        // milliseconds between ramp steps
    var targetAngle: real
    var currentAngle: real
    var clockwise: bool
    var startTime: real           // steady-clock reading of the last step

    /** What the constructor's preprocessing guarantees about the calibration. */
    predicate Calibrated() {
      maxAngle > 0.0 && stepSize > 0.0
    }

    /** The command setPosition sends for an angle. */
    function OffTimeCommand(angle: real): ChannelCommand
      requires Calibrated()
    {
      SetOffTime(pcaChannel, OffTicks(angleToPwmSlope, minPulse as real, stepSize, maxAngle, angle))
    }

    /** The commands a ramp through `trace` sends, one per step. */
    function OffTimeCommands(trace: seq<real>): (cmds: seq<ChannelCommand>)
      requires Calibrated()
      ensures |cmds| == |trace|
      decreases |trace|
    {
      if trace == [] then []
      else OffTimeCommands(trace[..|trace| - 1]) + [OffTimeCommand(trace[|trace| - 1])]
    }

    lemma OffTimeCommandsSnoc(trace: seq<real>, angle: real)
      requires Calibrated()
      ensures OffTimeCommands(trace + [angle]) == OffTimeCommands(trace) + [OffTimeCommand(angle)]
    {
      assert (trace + [angle])[..|trace|] == trace;
    }

    /**
     * Derives slope, tick length and step period from the calibration, then
     * switches the channel off and pins its on-time at 0. The current angle is
     * a parameter: the source neither declares nor initialises it; the target
     * angle, direction and start time are left unset, as in the source.
     */
    constructor (pca9685: PwmChannels, pcaChannel: byte, pwmFreq: byte, minPulse: uint16, maxPulse: uint16,
                 maxAngle: real, rotationSpeed: real, stepFreq: real, initialAngle: real)
      requires pwmFreq > 0 && maxAngle > 0.0 && stepFreq != 0.0
      modifies pca9685
      ensures Calibrated()
      ensures pca == pca9685 && this.pcaChannel == pcaChannel && this.pwmFreq == pwmFreq
      ensures this.minPulse == minPulse && this.maxPulse == maxPulse && this.maxAngle == maxAngle
      ensures this.rotationSpeed == rotationSpeed && !running && currentAngle == initialAngle
      ensures angleToPwmSlope == (maxPulse - minPulse) as real / maxAngle
      ensures stepSize == 1000000.0 / (4096.0 * pwmFreq as real)
      ensures stepPeriod == 1000.0 / stepFreq
      ensures pca.commands == old(pca9685.commands) + [SwitchOff(pcaChannel), SetOnTime(pcaChannel, 0)]
    {
      pca := pca9685;
      this.pcaChannel := pcaChannel;
      this.pwmFreq := pwmFreq;
      this.minPulse := minPulse;
      this.maxPulse := maxPulse;
      this.maxAngle := maxAngle;
      this.rotationSpeed := rotationSpeed;
      running := false;
      angleToPwmSlope := (maxPulse - minPulse) as real / maxAngle;
      stepSize := 1000000.0 / (4096.0 * pwmFreq as real);
      stepPeriod := 1000.0 / stepFreq;
      currentAngle := initialAngle;
      targetAngle := *;
      clockwise := *;
      startTime := *;
      new;
      Disable();
      pca.commands := pca.commands + [SetOnTime(pcaChannel, 0)];
    }

    /** Clamps the angle to [0, maxAngle] and sends the matching off-time. */
    method SetPosition(angle: real)
      requires Calibrated()
      modifies pca
      ensures pca.commands == old(pca.commands) + [OffTimeCommand(angle)]
    {
      var a := Clamp(angle, 0.0, maxAngle);
      var pulseWidth := PulseWidth(angleToPwmSlope, minPulse as real, a);
      var offTime := Round(pulseWidth / stepSize);
      pca.commands := pca.commands + [SetOffTime(pcaChannel, offTime)];
    }

    /**
     * One step at steady-clock reading `now`: the elapsed time since the last
     * reading times the speed, in the direction of travel, clamped.
     */
    method Step(now: real)
      requires Calibrated() && ClampDefined(targetAngle, clockwise, maxAngle)
      modifies this`currentAngle, this`startTime, pca
      ensures startTime == now
      ensures currentAngle ==
                StepAngle(old(currentAngle), targetAngle, clockwise, Increment(old(startTime), now, rotationSpeed), maxAngle)
      ensures pca.commands == old(pca.commands) + [OffTimeCommand(currentAngle)]
    {
      var delta := Increment(startTime, now, rotationSpeed);  // elapsed seconds * speed
      startTime := now;
      if clockwise {
        currentAngle := Clamp(currentAngle + delta, 0.0, targetAngle);
      } else {
        currentAngle := Clamp(currentAngle - delta, targetAngle, maxAngle);
      }
      SetPosition(currentAngle);
    }

    /**
     * The state of the ramp thread after its first `i` steps over `clock`,
     * started at angle `start`, step clock `t0` and command log `cmds0`.
     */
    ghost predicate Ramped(start: real, t0: real, cmds0: seq<ChannelCommand>, clock: seq<real>, i: nat)
      requires Calibrated() && ClampDefined(targetAngle, clockwise, maxAngle)
      reads this`targetAngle, this`clockwise, this`rotationSpeed, this`currentAngle, this`startTime, pca`commands
    {
      && i <= |clock|
      && var trace := RampTrace(start, targetAngle, clockwise, maxAngle, Deltas(t0, clock[..i], rotationSpeed));
      && |trace| == i
      && currentAngle == AngleAfter(start, trace)
      && pca.commands == cmds0 + OffTimeCommands(trace)
      && startTime == if i == 0 then t0 else clock[i - 1]
    }

    /** One iteration of the ramp thread: a step at the next clock reading. */
    method RampStep(clock: seq<real>, i: nat, ghost start: real, ghost t0: real, ghost cmds0: seq<ChannelCommand>)
      requires Calibrated() && ClampDefined(targetAngle, clockwise, maxAngle)
      requires i < |clock| && currentAngle != targetAngle
      requires Ramped(start, t0, cmds0, clock, i)
      modifies this`currentAngle, this`startTime, pca
      ensures Ramped(start, t0, cmds0, clock, i + 1)
    {
      ghost var trace := RampTrace(start, targetAngle, clockwise, maxAngle, Deltas(t0, clock[..i], rotationSpeed));
      Step(clock[i]);
      TraceStep(start, targetAngle, clockwise, maxAngle, t0, clock, i, rotationSpeed);
      OffTimeCommandsSnoc(trace, currentAngle);
    }

    /**
     * The ramp thread, run over the clock readings `clock` it takes: steps
     * until the angle equals the target, then clears `running`. If the
     * readings run out first, the thread is still ramping.
     */
    method VelocityControlThread(clock: seq<real>) returns (steps: nat)
      requires Calibrated() && ClampDefined(targetAngle, clockwise, maxAngle)
      modifies this`currentAngle, this`startTime, this`running, pca
      ensures Ramped(old(currentAngle), old(startTime), old(pca.commands), clock, steps)
      ensures currentAngle == targetAngle ==> !running
      ensures currentAngle != targetAngle ==> steps == |clock| && running == old(running)
    {
      ghost var start := currentAngle;
      ghost var t0 := startTime;
      ghost var cmds0 := pca.commands;
      var i := 0;
      assert clock[..0] == [];
      while currentAngle != targetAngle && i < |clock|
        invariant Ramped(start, t0, cmds0, clock, i)
        modifies this`currentAngle, this`startTime, pca
        decreases |clock| - i
      {
        RampStep(clock, i, start, t0, cmds0);
        i := i + 1;
      }
      if currentAngle == targetAngle {
        running := false;
      }
      steps := i;
    }

    /**
     * Starts a move. While a ramp is running it changes nothing (the source
     * prints a message and returns); otherwise it sets the target, the
     * direction (equal angles count as clockwise), the start of the step
     * clock, and marks the servo running.
     */
    method MoveToPosition(angle: real, now: real)
      modifies this`targetAngle, this`running, this`startTime, this`clockwise
      ensures old(running) ==>
                running && targetAngle == old(targetAngle) && clockwise == old(clockwise)
                && startTime == old(startTime)
      ensures !old(running) ==>
                running && targetAngle == angle && startTime == now && clockwise == !(angle < currentAngle)
    {
      if running {
        return;
      }
      targetAngle := angle;
      running := true;
      startTime := now;
      if targetAngle < currentAngle {
        clockwise := false;
      } else {
        clockwise := true;
      }
    }

    /** Changes the speed used by later steps, and nothing else. */
    method SetSpeed(speed: real)
      modifies this`rotationSpeed
      ensures rotationSpeed == speed
    {
      rotationSpeed := speed;
    }

    /** Switches the channel off. */
    method Disable()
      modifies pca
      ensures pca.commands == old(pca.commands) + [SwitchOff(pcaChannel)]
    {
      pca.commands := pca.commands + [SwitchOff(pcaChannel)];
    }

    /** Switches the channel on. */
    method Enable()
      modifies pca
      ensures pca.commands == old(pca.commands) + [SwitchOn(pcaChannel)]
    {
      pca.commands := pca.commands + [SwitchOn(pcaChannel)];
    }
  }
}
