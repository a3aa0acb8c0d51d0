# Robotic arm drive chain, modelled in Dafny

This project models the control core of a six-joint robotic arm. The arm drives
its hobby servos through a PCA9685 16-channel PWM controller on a Linux I2C bus.
Five pieces are modelled, one file each:

- `i2c.dfy` (module `I2cBus`): the I2C bus channel. It owns one open descriptor,
  keeps a registry of slave addresses that only grows and never holds
  duplicates, and caches the active slave so that selecting the address that is
  already active costs no `ioctl`. Reads and writes check the registry first.
- `pca9685.dfy` (module `Pca9685`): the PCA9685 register protocol. The chip is
  a 256-entry register file. Each 2-byte `[register, value]` write frame updates
  it once `::write` reports both bytes sent.
  - `setPWM` splits 12-bit on/off tick counts over the LEDn_ON_L/H and
    LEDn_OFF_L/H registers at `0x06 + 4n`.
  - `setPWMFreq` writes the prescaler between a MODE1 sleep and a MODE1
    restart. This follows the NXP PCA9685 datasheet, section 7.3 (register map)
    and section 7.3.5 (PRE_SCALE).
- `servo.dfy` (module `ServoMotion`): the servo motion engine.
  - It keeps a `running` guard, a target and a direction (clockwise means
    increasing angle).
  - Each step moves the angle by elapsed time × speed, clamped so that it
    never passes the target, and sends the matching off-tick count to the
    servo's channel.
  - The ramp thread is a loop over the steady-clock readings it takes.
- `arm.dfy` (module `RoboticArm`): the arm orchestration.
  - It wires the bus, the controller and six servos built from the joint
    calibrations.
  - It validates an angle before moving a joint.
  - It checks the wrist angles (pitch, yaw, roll) in a fixed order and then
    moves the wrist joints in a fixed order.
  - Each servo is seen through the log of moves dispatched to it, including
    whether the caller joins or detaches the motion thread.
- `as5600.dfy` (module `As5600Conf`): how the AS5600 encoder program packs its
  seven settings into the 14-bit CONF word.
- `platform.dfy` (module `Platform`): shared pieces: byte and `uint16_t` ranges,
  the outcome and result types that stand for C++ exceptions, and the system
  calls the drivers issue.

The system calls `open`, `ioctl`, `::read`, `::write` and `close` are recorded
in a call log. Whatever a call returns is passed in as an argument. A thrown
`std::runtime_error` becomes a `Fail`/`Failure` result.

`I2C::isActive` is the predicate `I2cBus.I2C.IsActive`, and the contracts of
`I2cBus.I2C.SetSlave` are stated with it. `RoboticArmBuilder::validateAngle` is
the predicate `RoboticArm.RoboticArmBuilder.ValidateAngle`, and the contracts
of `SetAngle` and `SetOrientation` are stated with it. The register names of
`include/pca9685.h:8-15` are the constants at the top of `pca9685.dfy`. The
joint calibrations of `include/config.h:30-70` are `RoboticArm.JointParams`.

Facts about the code that the model keeps:

- Neither `moveToPosition` (src/servo.cpp:97-123) nor `step`
  (src/servo.cpp:54-72) clamps the target angle to `[0, maxAngle]`. A target
  above `maxAngle` can therefore be reached by `currentAngle` itself (see
  `ServoMotion.ClampDefined`). Only the pulse that `setPosition` sends is
  clamped (src/servo.cpp:81).
- `moveToPosition` on a running servo prints a message and returns
  (src/servo.cpp:100-103). The model keeps the state unchanged and drops the
  message. The move is not queued.
- `setPWMFreq` does not range-check the prescaler before its `uint8_t` cast
  (src/pca9685.cpp:55). The model requires a prescale that fits a `uint8_t`
  (see "Left out").
- `PCA9685` does not go through an `I2C` object. Its constructor opens
  `/dev/i2c-<n>` itself, selects its slave with its own `ioctl`, and programs
  50 Hz (src/pca9685.cpp:10-24).
- The destructor's comment (src/RoboticArmBuilder.cpp:47) and its declaration
  in include/RoboticArmBuilder.h:57 say it resets the arm to its default
  position. The body (src/RoboticArmBuilder.cpp:48-55) only deletes the
  servos, the controller and the bus, and the model records exactly that.
- `setOrientation` moves the three wrist joints directly
  (src/RoboticArmBuilder.cpp:105-115). No inverse kinematics runs, and the
  joints are indexed 0 to 5.

The source's declarations do not all agree with its definitions. The model
follows the definitions:

- `src/servo.cpp:14-15` defines a constructor with eight parameters, while
  `include/servo.h:33` declares one with six. `src/RoboticArmBuilder.cpp:35-40`
  uses a `Servo(ServoParams)` constructor, and lines 82-114 use a
  `moveToPosition` whose result is joined or detached. The model follows
  `src/servo.cpp` for the servo. For the arm, it records each dispatched move
  with its join/detach choice.
- `include/pca9685.h` declares `setPWM(uint8_t, uint16_t, uint16_t)`,
  `writeReg`/`readReg`, `setPWMFrequency(int)` and an `I2C* i2c` member
  (include/pca9685.h:21-52). `src/pca9685.cpp` defines `setPWM(int, int, int)`,
  `writeRegister`/`readRegister`, `setPWMFreq(float)` and uses its own
  `fileDescriptor`. The model follows the definitions, so `SetPWM` takes
  unbounded integers for the channel and the on and off counts, and the
  frequency is a real.
- `src/RoboticArmBuilder.cpp:18` builds `PCA9685(i2c, addr)`, but
  `src/pca9685.cpp:10` defines `PCA9685(int i2cBus, int addr)`. The model
  follows `src/pca9685.cpp`.

## Model

| member | source | states |
|---|---|---|
| I2cBus.I2C.constructor | src/i2c.cpp:11-18 | with an open descriptor: the registry is empty, the active slave is 0x00, the registry invariant holds, and the only call issued is the open |
| I2cBus.OpenBus | src/i2c.cpp:11-18 | construction fails with OpenFailed exactly when `open` returns a negative descriptor; otherwise it yields a fresh bus with an empty registry and active slave 0x00 |
| I2cBus.I2C.IsActive | src/i2c.cpp:44-50 | whether the address is the cached selection; SetSlave's contract says the ioctl is issued exactly when it does not hold |
| I2cBus.Selection | src/i2c.cpp:31-35 | the calls setSlave issues: none when the address is already active, otherwise one I2C_SLAVE ioctl; SetSlave's contract and SelectZeroOnFreshBus state what follows from it |
| I2cBus.I2C.SetSlave | src/i2c.cpp:28-41 | selecting the active slave issues no ioctl and passes; any other address issues exactly one ioctl, and a failed ioctl throws with the active slave unchanged; a pass always leaves the requested slave active; the registry is untouched |
| I2cBus.SelectZeroOnFreshBus | src/i2c.cpp:31-33 | on a freshly constructed bus, selecting 0x00 issues no call at all, whatever the ioctl would return |
| I2cBus.I2C.ValidateSlave | src/i2c.cpp:53-60 | the linear scan answers exactly whether the address is in the registry |
| I2cBus.I2C.PingSlave | src/i2c.cpp:72-80 | a failed selection throws before any read; otherwise one 1-byte read is issued and the answer is whether it returned 1; the registry is untouched |
| I2cBus.I2C.RegisterSlave | src/i2c.cpp:63-69 | a registered address returns false with no bus traffic; otherwise the ping decides; the address is appended exactly when the call returns true, nothing else changes the registry, and the no-duplicates invariant is kept |
| I2cBus.I2C.Read | src/i2c.cpp:83-99 | an unregistered address throws before any selection or transfer, with the active slave unchanged; a registered one is selected (a failed ioctl throws), a negative size throws, a short read throws, and success returns exactly the numBytes bytes the device delivered, with the address active; the registry is untouched |
| I2cBus.I2C.Write | src/i2c.cpp:102-115 | the same order of checks as read; a selected slave receives exactly the first numBytes bytes of the buffer, and a short write throws |
| I2cBus.I2C.Close | src/i2c.cpp:21-25 | the destructor closes the descriptor, and that is its only call |
| Pca9685.FrameWrites | src/pca9685.cpp:32-34 | the `::write` calls writeRegister issues for a sequence of frames; FrameWritesTwoBytes and FrameWritesAppend state their shape |
| Pca9685.FrameWritesTwoBytes | src/pca9685.cpp:33-34 | each frame goes out as exactly one two-byte write, the register byte first and the value second |
| Pca9685.FrameWritesAppend | src/pca9685.cpp:32-37 | the writes of consecutive writeRegister calls are the writes of the concatenated frames |
| Pca9685.Delivered | src/pca9685.cpp:34-36 | the frames of a sequence get through up to the first write that does not report 2 bytes, and none after it |
| Pca9685.Apply | src/pca9685.cpp:32-37 | the register file keeps its 256 entries through any frames; what each register then holds is stated by ApplyLast and ApplyOther |
| Pca9685.PwmFrames | src/pca9685.cpp:62-67 | four frames, to four different registers, for any channel |
| Pca9685.FrequencyFrames | src/pca9685.cpp:56-58 | three frames; the prescaler is written, with the given prescale, only right after MODE1 has put the chip to sleep, and the sequence ends with MODE1 <- RESTART |
| Pca9685.Truncate | src/pca9685.cpp:55 | the C conversion of a real to an integer: toward zero, less than one away from the argument |
| Pca9685.PrescaleValue | src/pca9685.cpp:55 | for a positive frequency the prescale before its uint8_t cast is never negative, so the cast is defined exactly when it is at most 255 |
| Pca9685.LowByte | src/pca9685.cpp:63-65 | `on & 0xFF` and `off & 0xFF` as bytes; what they mean together with the high byte is stated by ByteSplit |
| Pca9685.HighByte | src/pca9685.cpp:64-66 | `on >> 8` and `off >> 8` stored into a `uint8_t`, taking the arithmetic shift (floor division by 256) for a negative count; ByteSplit states that both bytes rebuild a 16-bit count |
| Pca9685.ChannelRegister | src/pca9685.cpp:63-66 | `base + 4 * channel` stored into a `uint8_t` register address; ChannelRegisters states the layout it gives |
| Pca9685.LedOnL | src/pca9685.cpp:63 | the LEDn_ON_L register `0x06 + 4 * channel`; see ChannelRegisters |
| Pca9685.LedOnH | src/pca9685.cpp:64 | the LEDn_ON_H register `0x07 + 4 * channel`, one above LEDn_ON_L by ChannelRegisters |
| Pca9685.LedOffL | src/pca9685.cpp:65 | the LEDn_OFF_L register `0x08 + 4 * channel`, two above LEDn_ON_L by ChannelRegisters |
| Pca9685.LedOffH | src/pca9685.cpp:66 | the LEDn_OFF_H register `0x09 + 4 * channel`, three above LEDn_ON_L by ChannelRegisters |
| Pca9685.ByteSplit | src/pca9685.cpp:63-66 | for a 12-bit count, `v & 0xFF` and `v >> 8` rebuild it as hi * 256 + lo, and the high byte is at most 15 |
| Pca9685.ChannelRegisters | src/pca9685.cpp:63-66 | for channels 0..15 the four LED registers are 0x06 + 4c to 0x09 + 4c, consecutive, inside 0x06..0x45 |
| Pca9685.ChannelsDisjoint | src/pca9685.cpp:62-67 | two different channels in 0..15 write disjoint register sets |
| Pca9685.ApplyOther | src/pca9685.cpp:32-37 | write frames for other registers leave a register unchanged |
| Pca9685.ApplyLast | src/pca9685.cpp:32-37 | a register holds the value of the last frame written to it |
| Pca9685.ApplySnoc | src/pca9685.cpp:32-37 | each delivered frame updates one register of the chip |
| Pca9685.PwmRoundTrip | src/pca9685.cpp:62-67 | after setPWM(c, on, off) with c in 0..15 and 12-bit counts, each register pair read back as hi * 256 + lo gives on and off, each high byte is at most 15, and every other register is unchanged |
| Pca9685.FrequencyLeavesRestart | src/pca9685.cpp:56-58 | after the sleep, prescale, restart sequence MODE1 holds 0x80 (RESTART), PRE_SCALE holds the prescale, and no other register changed |
| Pca9685.PrescaleOfInteger | src/pca9685.cpp:55 | for an integer frequency f, the truncated prescale is 25000000 / (4096 f) - 1 in integer division up to 6103 Hz, and 0 above |
| Pca9685.PrescaleAt50Hz | src/pca9685.cpp:23 | the constructor's 50 Hz gives prescale 121, which fits a uint8_t |
| Pca9685.PCA9685.WriteRegister | src/pca9685.cpp:32-37 | sends exactly the frame [reg, value]; the register takes the value when 2 bytes are written, and otherwise the call throws and the chip is unchanged |
| Pca9685.PCA9685.ReadRegister | src/pca9685.cpp:40-51 | writes the 1-byte register address, then reads 1 byte; a short address write throws before any read is attempted, a short read throws, and success returns the register's value |
| Pca9685.PCA9685.SetPWMFreq | src/pca9685.cpp:54-59 | issues the frames MODE1 <- 0x10, PRE_SCALE <- prescale, MODE1 <- 0x80 in order up to the first short write; the chip receives exactly the delivered prefix; it passes exactly when all three are delivered |
| Pca9685.PCA9685.SetPWM | src/pca9685.cpp:62-67 | issues (0x06 + 4c, on & 0xFF), (0x07 + 4c, on >> 8), (0x08 + 4c, off & 0xFF), (0x09 + 4c, off >> 8) in order up to the first short write; the chip receives exactly the delivered prefix; it passes exactly when all four are delivered |
| Pca9685.PCA9685.Close | src/pca9685.cpp:27-29 | the destructor closes the descriptor |
| Pca9685.Construct | src/pca9685.cpp:10-24 | a failed open throws with no other call; a failed slave selection closes the descriptor and throws; otherwise it runs setPWMFreq(50); a built object's registers are the chip after the sleep, prescale 121, restart sequence (MODE1 = RESTART), and it has logged every call |
| ServoMotion.Clamp | src/servo.cpp:63 | std::clamp lands inside the bounds and is the identity between them |
| ServoMotion.StepAngle | src/servo.cpp:62-67 | a step ends between the clamp bound behind it and the target |
| ServoMotion.StepBounds | src/servo.cpp:62-67 | from on course with a non-negative increment, a clockwise step never decreases and never passes the target, a counter-clockwise step never increases and never goes below it; the step lands on the target or covers exactly the increment, and it lands whenever the increment reaches the target |
| ServoMotion.Round | src/servo.cpp:89 | C's round(): within half of its argument, halfway cases away from zero, and the sign kept |
| ServoMotion.PulseWidth | src/servo.cpp:86 | a non-negative slope and angle give at least minPulse; the endpoints of the range are stated by PulseRange |
| ServoMotion.OffTicks | src/servo.cpp:81-89 | the off-tick count is within half a tick of the clamped angle's pulse width divided by the tick length |
| ServoMotion.PulseRange | src/servo.cpp:81-89 | with the constructor's slope, angle 0 and below gives minPulse, maxAngle and above gives maxPulse, every width is between the two, and the off-tick count is within half a tick of width / stepSize |
| ServoMotion.Deltas | src/servo.cpp:56-66 | one angular increment per clock reading |
| ServoMotion.Increment | src/servo.cpp:57-66 | the angle covered between two clock readings, elapsed seconds times rotationSpeed; DeltasAt states which readings each increment of a ramp uses |
| ServoMotion.DeltasAt | src/servo.cpp:56-66 | increment k is the speed times the time between clock readings k - 1 and k, the first measured from the start of the step clock |
| ServoMotion.RampTrace | src/servo.cpp:38-47 | at most one step per clock reading |
| ServoMotion.RampTraceShape | src/servo.cpp:38-47 | every angle of the ramp is on course, only the last can be the target, and the ramp stops short of its readings only after it has arrived |
| ServoMotion.TraceStep | src/servo.cpp:38-41 | before arrival, one more clock reading adds exactly one step to the ramp, with the increment measured since the previous reading |
| ServoMotion.RampProgress | src/servo.cpp:38-47 | a ramp with non-negative increments stays on course, never moves away from the target, and until it arrives has covered exactly the sum of its increments |
| ServoMotion.RampArrives | src/servo.cpp:38-47 | once the increments add up to the distance, the clamp has landed on the target exactly and the loop stops |
| ServoMotion.RampArrivesWithin | src/servo.cpp:38-47 | if every step covers at least eps > 0, the ramp has arrived after any n steps with n * eps at least the distance |
| ServoMotion.MoveStartsOnCourse | src/servo.cpp:106-114 | the direction moveToPosition picks puts an angle in [0, maxAngle] on course toward any target, with ordered clamp bounds (equal angles count as clockwise) |
| ServoMotion.RampAtTarget | src/servo.cpp:38 | a move to the angle the servo is already at takes no step |
| ServoMotion.Servo.constructor | src/servo.cpp:14-31 | slope = (maxPulse - minPulse) / maxAngle, stepSize = 10^6 / (4096 pwmFreq), stepPeriod = 1000 / stepFreq, not running; the channel is switched off, then its on-time is set to 0 |
| ServoMotion.Servo.OffTimeCommand | src/servo.cpp:86-92 | the setOffTime command for an angle, on the servo's channel with OffTicks of that angle; OffTicks states its half-tick bound |
| ServoMotion.Servo.OffTimeCommands | src/servo.cpp:54-72 | the commands a run of steps sends, exactly one per angle of the trace |
| ServoMotion.Servo.OffTimeCommandsSnoc | src/servo.cpp:69-70 | one more step extends the commands by exactly the command of the new angle |
| ServoMotion.Servo.SetPosition | src/servo.cpp:78-94 | sends exactly one off-time command: the rounded pulse width of the clamped angle divided by the tick length |
| ServoMotion.Servo.Step | src/servo.cpp:54-72 | the angle becomes the clamped step by elapsed time × speed, the step clock moves to the new reading, and the new angle is sent |
| ServoMotion.Servo.RampStep | src/servo.cpp:38-41 | one loop iteration extends the ramp state by exactly one step |
| ServoMotion.Servo.VelocityControlThread | src/servo.cpp:37-48 | after the loop, the angle, the step clock and the commands sent are those of the ramp over the readings taken; leaving at the target clears running, and otherwise every reading was used and running is unchanged |
| ServoMotion.Servo.MoveToPosition | src/servo.cpp:97-123 | while running, nothing changes; otherwise it sets the target, starts the step clock, marks the servo running and sets clockwise exactly when the target is not below the current angle |
| ServoMotion.Servo.SetSpeed | src/servo.cpp:126-128 | only the rotation speed changes |
| ServoMotion.Servo.Disable | src/servo.cpp:131-133 | sends exactly switchOff for the servo's channel |
| ServoMotion.Servo.Enable | src/servo.cpp:135-137 | sends exactly switchOn for the servo's channel |
| RoboticArm.JointParams | src/RoboticArmBuilder.cpp:21-32 | every joint's parameters name the one shared controller, the global servo speed and the step rate |
| RoboticArm.JointCalibration | include/config.h:30-70 | the six joints use six different channels below 16, and every calibration has a positive angle range, minPulse < maxPulse and a default angle inside the range |
| RoboticArm.RoboticArmBuilder.constructor | src/RoboticArmBuilder.cpp:12-45 | the bus is built on /dev/i2c-1, then the controller at 0x40, then servos[i] from joint i + 1's calibration, all sharing that controller; nothing has been dispatched yet |
| RoboticArm.RoboticArmBuilder.Teardown | src/RoboticArmBuilder.cpp:48-55 | deletes servos 0 to 5 in order, then the controller, then the bus |
| RoboticArm.TeardownOrder | src/RoboticArmBuilder.cpp:48-55 | servos 0 to 5 are deleted first, each once and in index order; then the controller is deleted, and last the bus; every servo goes before the controller and the controller before the bus |
| RoboticArm.RoboticArmBuilder.ValidateAngle | src/RoboticArmBuilder.cpp:60-62 | whether joint motor accepts the angle; SetAngle passes exactly when it holds, SetOrientation exactly when it holds for joints 3, 4 and 5 |
| RoboticArm.OrientationCheck | src/RoboticArmBuilder.cpp:94-102 | pitch (joint 3) fails first, yaw (joint 4) only when pitch passes, roll (joint 5) only when both pass; it passes exactly when all three are valid |
| RoboticArm.OrientationMoves | src/RoboticArmBuilder.cpp:105-115 | the three wrist dispatches of a successful setOrientation, in source order; OrientationMovesShape states which joint gets which angle and which move may be joined |
| RoboticArm.OrientationMovesShape | src/RoboticArmBuilder.cpp:105-115 | the wrist moves give joints 3, 4 and 5 exactly one move each, with their own angle, and no other joint any; only the pitch move may be joined, and only when wait is set |
| RoboticArm.AnglesForAppend | src/RoboticArmBuilder.cpp:81-114 | what a joint receives from two stretches of the dispatch log is what it receives from each, in order |
| RoboticArm.SingleMove | src/RoboticArmBuilder.cpp:81-87 | one more dispatched move reaches its own joint and no other |
| RoboticArm.RoboticArmBuilder.SetAngle | src/RoboticArmBuilder.cpp:73-88 | throws AngleOutOfRange exactly when the angle is invalid for the joint, with nothing dispatched; otherwise dispatches exactly one move to servos[m], joined when wait is set |
| RoboticArm.RoboticArmBuilder.SetOrientation | src/RoboticArmBuilder.cpp:91-116 | the outcome is the ordered check; on failure nothing is dispatched; on success roll, yaw and pitch go to servos 5, 4 and 3 in that order, only the pitch move is joined, and only when wait is set |
| RoboticArm.RoboticArmBuilder.SetEndPosition | src/RoboticArmBuilder.cpp:121-128 | changes no state and dispatches nothing |
| RoboticArm.RoboticArmBuilder.SetEndSpeed | src/RoboticArmBuilder.cpp:134-136 | only endSpeed changes, to the given speed |
| As5600Conf.OrShifted | tests/as5600_test.cpp:49-55 | a `CONF \|= x << s` step never clears a bit already set and sets every bit of the shifted setting that fits in 16 bits |
| As5600Conf.Placed | tests/as5600_test.cpp:49-55 | one setting shifted to its offset and cut to the 16 bits a `uint16_t` keeps; OrShiftedAsWritten ties it to the statement as written |
| As5600Conf.OrShiftedAsWritten | tests/as5600_test.cpp:49-55 | one step is the OR at `int` width followed by the store into a `uint16_t` |
| As5600Conf.Pack | tests/as5600_test.cpp:48-55 | every setting's shifted bits that fit in 16 bits are in the word, and in-range settings leave bits 14 and 15 clear |
| As5600Conf.FieldsDisjoint | tests/as5600_test.cpp:15-43 | the fields at the shift offsets Pack uses, with the documented widths (2, 2, 2, 2, 2, 3, 1 bits), are pairwise disjoint bit ranges that together cover exactly bits 0 to 13 |
| As5600Conf.SettingsWithinFields | tests/as5600_test.cpp:49-55 | an in-range setting shifted by its offset sets no bit outside its own field |
| As5600Conf.PackFits | tests/as5600_test.cpp:48-55 | for in-range settings CONF equals PM \| HYST << 2 \| OUTS << 4 \| PWMF << 6 \| SF << 8 \| FTH << 10 \| WD << 13 computed at `int` width, so no store truncates |
| As5600Conf.UnpackPack | tests/as5600_test.cpp:49-55 | each in-range setting is recovered from CONF by shift and mask |
| As5600Conf.PackUnpack | tests/as5600_test.cpp:49-55 | every word below 2^14 is the packing of the settings read from it |
| As5600Conf.PackInjective | tests/as5600_test.cpp:49-55 | two in-range settings give the same CONF exactly when they are equal |
| As5600Conf.FileSettingsWord | tests/as5600_test.cpp:17-55 | the program's settings (PM 0, HYST 3, everything else 0) are in range and give CONF 12 |
| As5600Conf.OutOfRangeOverlaps | tests/as5600_test.cpp:49-55 | nothing masks a setting to its width: HYST = 4 is out of range and packs to the same word as OUTS = 1 |

## Left out

- Threads, `detach`/`join`, `sleep_for` and `steady_clock`: a move records its join/detach choice, and the ramp thread is a loop over the clock readings, passed in.
- Concurrency between joints and the shared controller: each servo's ramp is a sequential loop, and interleavings of ramps are not modelled.
- System calls: `open`, `ioctl`, `::read`, `::write` and `close` are recorded in order, and their results are arguments.
- Floating point: angles, times, pulse widths and the prescale formula are reals. `round` is C's round-half-away-from-zero on reals. `float` precision is not modelled.
- ServoMotion.Servo.SetPosition: the `static_cast<uint16_t>` of the rounded off-tick count (src/servo.cpp:89) is not modelled. The model sends the count as an unbounded integer. In C++ the conversion of a floating value above 65535 to `uint16_t` is undefined behaviour, not a wrap. The count is about pulse × 4096 × pwmFreq / 10^6, so only a very large maxPulse or pwmFreq reaches the undefined range. For the joints of `include/config.h:30-70` at 50 Hz it is at most about 572 ticks, well inside the range.
- `int` overflow in `0x06 + 4 * channel`: integers are unbounded. The `uint8_t` conversion of register and value bytes is modelled as reduction mod 256.
- Pca9685.HighByte: for a negative `on` or `off`, `>> 8` on an `int` is implementation-defined before C++20. The model takes the arithmetic shift, which is floor division by 256 (what C++20 requires and what GCC and Clang do).
- Console output (`std::cout`, `printf`, `std::cerr`).
- Inverse kinematics: `include/ik_solver.h` only declares a solver, and `setEndPosition` is empty.
- The controller API declared in `include/pca9685.h` has no definitions in the source. The servo's `switchOff`, `switchOn`, `setOnTime` and `setOffTime` calls are recorded as channel commands. `getRegister`, `modifyReg`, `validate*` and `setDuty` are not modelled.
- `Servo::isAngleValid` has no definition in the source. It is an uninterpreted per-joint predicate given to the arm's constructor.
- The AS5600 class and the encoder read loop of `tests/as5600_test.cpp` are hardware I/O. Only the CONF packing is modelled.
- I2cBus.I2C.Write requires `0 <= numBytes <= |buffer|`. The source hands `numBytes` bytes of the caller's buffer to `::write` without checking that the buffer holds that many. A negative `numBytes` is excluded too. Unlike read, write has no vector to throw on it. It passes the count on to `::write` as a huge `size_t`, and what the kernel then returns is not modelled.
- Pca9685.PCA9685.SetPWMFreq requires a frequency whose prescale fits a `uint8_t` (0 to 255). Outside that range the C++ float-to-`uint8_t` conversion is undefined.
- ServoMotion.Servo.Step requires ordered clamp bounds (target >= 0 clockwise, target <= maxAngle otherwise). `std::clamp` is undefined for reversed bounds. ServoMotion.MoveStartsOnCourse shows that this holds after any move from an angle in [0, maxAngle].
- ServoMotion.Servo.constructor requires pwmFreq > 0, maxAngle > 0 and stepFreq != 0. pwmFreq is a `uint8_t`, so > 0 is the same as != 0. It and stepFreq are divisors. In `float` a zero divisor would give an infinity, which reals cannot represent. maxAngle is a divisor too, and `std::clamp(angle, 0.0f, maxAngle)` in setPosition needs maxAngle >= 0 for ordered bounds. Together these give maxAngle > 0.
- ServoMotion.Servo.constructor takes the initial current angle as a parameter. `currentAngle` is neither declared in `include/servo.h` nor initialised.
- RoboticArm.RoboticArmBuilder.constructor takes the servo step rate as a parameter, because `SERVO_STEP_RATE` is not defined in `include/config.h`. The bus and controller constructors' failures are not propagated: the arm's wiring is recorded as a lifecycle log.
- RoboticArm.RoboticArmBuilder.SetAngle requires motor < 6. The source indexes the six-entry servo array without checking.
- Each arm servo is the log of moves dispatched to it, with its parameters. The arm does not drive the ramp engine of `servo.dfy`: that would need the `Servo(ServoParams)` constructor the source does not define.
