/**
 * The arm orchestration (src/RoboticArmBuilder.cpp): it wires one I2C bus,
 * one PCA9685 and six joint servos, validates angles before it moves a joint,
 * and checks and moves the wrist joints (pitch, yaw, roll) in a fixed order.
 * Each servo is seen through the moves dispatched to it: one ordered log of
 * (joint, angle, join-or-detach) entries for the whole arm. Whether an angle
 * suits a joint is an uninterpreted per-joint predicate.
 */
module RoboticArm {
  import opened Platform
  import ServoMotion

  /** What the caller does with the thread a move starts. */
  datatype Disposition = Join | Detach

  /** `servos[joint]->moveToPosition(angle)`, then join or detach. */
  datatype Dispatch = MoveTo(joint: nat, angle: real, disposition: Disposition)

  /** The runtime_error messages the arm throws. */
  datatype ArmError =
    | AngleOutOfRange   // "Angle is not within servo's range"
    | PitchOutOfRange   // "Pitch is not within servo's range"
    | YawOutOfRange     // "Yaw is not within servo's range"
    | RollOutOfRange    // "Roll is not within servo's range"

  /** Allocations and deletions the builder performs, in order. */
  datatype Lifecycle =
    | NewI2c(path: string)
    | NewPca(address: byte)
    | NewServo(index: nat)
    | DeleteServo(index: nat)
    | DeletePca
    | DeleteI2c

  /** The parameters one servo is built from. */
  datatype ServoParams = ServoParams(
    pca: ServoMotion.PwmChannels,
    channel: byte,
    minPulse: uint16,
    maxPulse: uint16,
    maxAngle: real,
    defaultAngle: real,
    speed: real,
    stepRate: real)

  const I2C_DIRECTORY: string := "/dev/i2c-1"
  const PCA9685_SLAVE_ADDR: byte := 0x40
  const SERVO_SPEED: real := 90.0   // degrees per second
  const JOINTS: nat := 6

  /** The calibration of joint `i + 1` (include/config.h), on the shared controller `pca`. */
  function JointParams(pca: ServoMotion.PwmChannels, i: nat, stepRate: real): (p: ServoParams)
    requires i < JOINTS
    ensures p.pca == pca && p.speed == SERVO_SPEED && p.stepRate == stepRate
  {
    match i
    case 0 => ServoParams(pca, 0, 540, 2665, 262.793, 130.0, SERVO_SPEED, stepRate)
    case 1 => ServoParams(pca, 1, 535, 2655, 263.848, 131.0, SERVO_SPEED, stepRate)
    case 2 => ServoParams(pca, 4, 400, 2795, 296.367, 136.0, SERVO_SPEED, stepRate)
    case 3 => ServoParams(pca, 5, 400, 2790, 295.4, 140.0, SERVO_SPEED, stepRate)
    case 4 => ServoParams(pca, 6, 395, 2780, 296.719, 134.0, SERVO_SPEED, stepRate)
    case 5 => ServoParams(pca, 8, 1000, 2000, 79.8926, 40.0, SERVO_SPEED, stepRate)
  }

  /**
   * The six joints drive six different outputs of the one 16-channel
   * controller, and every calibration is usable by the servo constructor:
   * a positive angle range, a pulse range in the right order, and a default
   * angle inside the range.
   */
  lemma JointCalibration(pca: ServoMotion.PwmChannels, stepRate: real)
    ensures forall i, j :: 0 <= i < j < JOINTS ==>
              JointParams(pca, i, stepRate).channel != JointParams(pca, j, stepRate).channel
    ensures forall i :: 0 <= i < JOINTS ==>
              var p := JointParams(pca, i, stepRate);
              && p.channel < 16
              && p.maxAngle > 0.0
              && p.minPulse < p.maxPulse
              && 0.0 <= p.defaultAngle <= p.maxAngle
  {
  }

  /**
   * The teardown order: every servo is deleted, each once, before the
   * controller they share, and the controller before the bus it runs on.
   */
  function TeardownOrder(): (order: seq<Lifecycle>)
    ensures |order| == JOINTS + 2
    ensures forall k :: 0 <= k < JOINTS ==> order[k] == DeleteServo(k)
    ensures order[JOINTS] == DeletePca && order[JOINTS + 1] == DeleteI2c
    ensures forall k :: 0 <= k < JOINTS ==> DeleteServo(k) in order
    ensures DeletePca in order && DeleteI2c in order
    ensures forall i, j :: 0 <= i < j < |order| && order[i].DeleteServo? && order[j].DeleteServo? ==>
              order[i].index < order[j].index
    ensures forall i, j :: 0 <= i < |order| && 0 <= j < |order| && order[i].DeleteServo? && order[j] == DeletePca ==> i < j
    ensures forall i, j :: 0 <= i < |order| && 0 <= j < |order| && order[i] == DeletePca && order[j] == DeleteI2c ==> i < j
  {
    var order := seq(JOINTS, i requires 0 <= i => DeleteServo(i)) + [DeletePca, DeleteI2c];
    assert forall k :: 0 <= k < JOINTS ==> order[k] == DeleteServo(k);
    order
  }

  /**
   * Which check of setOrientation fails first: pitch on joint 3, then yaw on
   * joint 4, then roll on joint 5; a later check is reached only when the
   * earlier ones pass.
   */
  function OrientationCheck(valid: (nat, real) -> bool, pitch: real, yaw: real, roll: real): (r: Outcome<ArmError>)
    ensures r == Pass <==> valid(3, pitch) && valid(4, yaw) && valid(5, roll)
    ensures r == Fail(PitchOutOfRange) <==> !valid(3, pitch)
    ensures r == Fail(YawOutOfRange) <==> valid(3, pitch) && !valid(4, yaw)
    ensures r == Fail(RollOutOfRange) <==> valid(3, pitch) && valid(4, yaw) && !valid(5, roll)
    ensures r != Fail(AngleOutOfRange)
  {
    if !valid(3, pitch) then Fail(PitchOutOfRange)
    else if !valid(4, yaw) then Fail(YawOutOfRange)
    else if !valid(5, roll) then Fail(RollOutOfRange)
    else Pass
  }

  /** The moves of a successful setOrientation: roll, yaw, then pitch, only pitch joinable. */
  function OrientationMoves(pitch: real, yaw: real, roll: real, wait: bool): seq<Dispatch> {
    [MoveTo(5, roll, Detach), MoveTo(4, yaw, Detach), MoveTo(3, pitch, if wait then Join else Detach)]
  }

  /**
   * The wrist moves reach each of joints 3, 4 and 5 exactly once with its own
   * angle, and the caller waits (joins) at most once: on the pitch joint, and
   * only when asked to.
   */
  lemma OrientationMovesShape(pitch: real, yaw: real, roll: real, wait: bool)
    ensures var moves := OrientationMoves(pitch, yaw, roll, wait);
      && (forall j :: 0 <= j < JOINTS ==> |AnglesFor(moves, j)| == (if 3 <= j then 1 else 0))
      && AnglesFor(moves, 3) == [pitch] && AnglesFor(moves, 4) == [yaw] && AnglesFor(moves, 5) == [roll]
      && (forall k :: 0 <= k < |moves| && moves[k].disposition == Join ==> moves[k].joint == 3 && wait)
      && (wait ==> moves[|moves| - 1] == MoveTo(3, pitch, Join))
  {
    var moves := OrientationMoves(pitch, yaw, roll, wait);
    assert moves == [moves[0]] + [moves[1]] + [moves[2]];
    forall j | 0 <= j < JOINTS
      ensures AnglesFor(moves, j) ==
                (if j == 5 then [roll] else []) + (if j == 4 then [yaw] else []) + (if j == 3 then [pitch] else [])
    {
      AnglesForAppend([moves[0]] + [moves[1]], [moves[2]], j);
      AnglesForAppend([moves[0]], [moves[1]], j);
    }
  }

  /** The angles dispatched to joint `j`, in order: the view of one servo. */
  function AnglesFor(log: seq<Dispatch>, j: nat): (angles: seq<real>)
    ensures |angles| <= |log|
  {
    if log == [] then []
    else (if log[0].joint == j then [log[0].angle] else []) + AnglesFor(log[1..], j)
  }

  /** What a joint receives from two stretches of the log is what it receives from each, in order. */
  lemma {:induction false} AnglesForAppend(a: seq<Dispatch>, b: seq<Dispatch>, j: nat)
    ensures AnglesFor(a + b, j) == AnglesFor(a, j) + AnglesFor(b, j)
    decreases |a|
  {
    if a != [] {
      var head := if a[0].joint == j then [a[0].angle] else [];
      assert (a + b)[0] == a[0];
      assert (a + b)[1..] == a[1..] + b;
      AnglesForAppend(a[1..], b, j);
      calc {
        AnglesFor(a + b, j);
        head + AnglesFor(a[1..] + b, j);
        head + (AnglesFor(a[1..], j) + AnglesFor(b, j));
        (head + AnglesFor(a[1..], j)) + AnglesFor(b, j);
        AnglesFor(a, j) + AnglesFor(b, j);
      }
    } else {
      assert a + b == b;
    }
  }

  /** One move reaches its own joint and no other. */
  lemma SingleMove(log: seq<Dispatch>, d: Dispatch, j: nat)
    ensures AnglesFor(log + [d], j) == AnglesFor(log, j) + (if d.joint == j then [d.angle] else [])
  {
    AnglesForAppend(log, [d], j);
  }

  class RoboticArmBuilder {
    const pca: ServoMotion.PwmChannels
    const servos: array<ServoParams>
    const isAngleValid: (nat, real) -> bool    // Servo::isAngleValid of each joint
    var endSpeed: real
    var dispatched: seq<Dispatch>
    var lifecycle: seq<Lifecycle>

    /**
     * Opens the bus, builds the controller on it at 0x40, then builds
     * servos[i] from joint i + 1's calibration, all on that one controller.
     * The step rate is a parameter: SERVO_STEP_RATE is not defined in
     * include/config.h. endSpeed is left unset, as in the source.
     */
    constructor (isAngleValid: (nat, real) -> bool, stepRate: real)
      ensures this.isAngleValid == isAngleValid
      ensures fresh(pca) && fresh(servos) && servos.Length == JOINTS
      ensures forall i :: 0 <= i < JOINTS ==> servos[i] == JointParams(pca, i, stepRate)
      ensures forall i :: 0 <= i < JOINTS ==> servos[i].pca == pca
      ensures dispatched == []
      ensures lifecycle == [NewI2c(I2C_DIRECTORY), NewPca(PCA9685_SLAVE_ADDR)] + seq(JOINTS, i requires 0 <= i => NewServo(i))
    {
      var controller := new ServoMotion.PwmChannels();
      pca := controller;
      servos := new ServoParams[JOINTS](i requires 0 <= i < JOINTS => JointParams(controller, i, stepRate));
      this.isAngleValid := isAngleValid;
      endSpeed := *;
      dispatched := [];
      lifecycle := [NewI2c(I2C_DIRECTORY), NewPca(PCA9685_SLAVE_ADDR)] + seq(JOINTS, i requires 0 <= i => NewServo(i));
    }

    /** The destructor: deletes servos[0] to servos[5], then the controller, then the bus. */
    method Teardown()
      modifies this`lifecycle
      ensures lifecycle == old(lifecycle) + TeardownOrder()
    {
      for i := 0 to JOINTS
        invariant lifecycle == old(lifecycle) + seq(i, k requires 0 <= k => DeleteServo(k))
      {
        lifecycle := lifecycle + [DeleteServo(i)];
      }
      lifecycle := lifecycle + [DeletePca, DeleteI2c];
    }

    /** Whether joint `motor` accepts `angle`; `motor` indexes the six-entry servo array. */
    predicate ValidateAngle(motor: nat, angle: real)
      requires motor < JOINTS
    {
      isAngleValid(motor, angle)
    }

    /**
     * Moves one joint: throws when the angle is not valid for it; otherwise
     * dispatches exactly one move to that joint, joined when `wait` is set.
     */
    method SetAngle(motor: nat, angle: real, wait: bool) returns (r: Outcome<ArmError>)
      requires motor < JOINTS
      modifies this`dispatched
      ensures r == Pass <==> ValidateAngle(motor, angle)
      ensures r.Fail? ==> r.error == AngleOutOfRange && dispatched == old(dispatched)
      ensures r.Pass? ==> dispatched == old(dispatched) + [MoveTo(motor, angle, if wait then Join else Detach)]
    {
      if !ValidateAngle(motor, angle) {
        return Fail(AngleOutOfRange);
      }
      if wait {
        dispatched := dispatched + [MoveTo(motor, angle, Join)];
      } else {
        dispatched := dispatched + [MoveTo(motor, angle, Detach)];
      }
      return Pass;
    }

    /**
     * Sets the wrist: checks pitch, yaw and roll on joints 3, 4 and 5 in that
     * order and throws the first failure before anything moves; otherwise
     * moves roll, yaw and pitch in that order, joining only the pitch move and
     * only when `wait` is set.
     */
    method SetOrientation(pitch: real, yaw: real, roll: real, wait: bool) returns (r: Outcome<ArmError>)
      modifies this`dispatched
      ensures r == OrientationCheck(isAngleValid, pitch, yaw, roll)
      ensures r == Pass <==> ValidateAngle(3, pitch) && ValidateAngle(4, yaw) && ValidateAngle(5, roll)
      ensures r.Fail? ==> dispatched == old(dispatched)
      ensures r.Pass? ==> dispatched == old(dispatched) + OrientationMoves(pitch, yaw, roll, wait)
    {
      if !ValidateAngle(3, pitch) {
        return Fail(PitchOutOfRange);
      } else if !ValidateAngle(4, yaw) {
        return Fail(YawOutOfRange);
      } else if !ValidateAngle(5, roll) {
        return Fail(RollOutOfRange);
      }
      if wait {
        dispatched := dispatched + [MoveTo(5, roll, Detach)];
        dispatched := dispatched + [MoveTo(4, yaw, Detach)];
        dispatched := dispatched + [MoveTo(3, pitch, Join)];
      } else {
        dispatched := dispatched + [MoveTo(5, roll, Detach)];
        dispatched := dispatched + [MoveTo(4, yaw, Detach)];
        dispatched := dispatched + [MoveTo(3, pitch, Detach)];
      }
      return Pass;
    }

    /** Inverse kinematics is not implemented: both branches are empty. */
    method SetEndPosition(x: real, y: real, z: real, wait: bool)
      ensures unchanged(this)
    {
      if wait {
      } else {
      }
    }

    /** Sets the target speed of the end effector, and nothing else. */
    method SetEndSpeed(speed: real)
      modifies this`endSpeed
      ensures endSpeed == speed
    {
      endSpeed := speed;
    }
  }
}
