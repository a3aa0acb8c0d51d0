/**
 * The PCA9685 register protocol (src/pca9685.cpp): 16 PWM channels whose 12-bit
 * on/off tick counts live in the LEDn_ON_L/H, LEDn_OFF_L/H registers at
 * 0x06 + 4n, and a prescaler that may only be written while MODE1 holds the
 * chip asleep (NXP PCA9685 datasheet, section 7.3 register map, PRE_SCALE in
 * section 7.3.5).
 *
 * The chip is modelled as a 256-entry register file that a 2-byte write frame
 * [register, value] updates when `::write` reports both bytes sent, and a
 * 1-byte write followed by a 1-byte read reads back. The counts the system
 * calls return are passed in by the caller.
 */
module Pca9685 {
  import opened Platform

  // Register map (include/pca9685.h)
  const MODE1_REG: byte := 0x00
  const MODE2_REG: byte := 0x01
  const ALL_LED_ON_L: byte := 0xFA
  const ALL_LED_ON_H: byte := 0xFB
  const ALL_LED_OFF_L: byte := 0xFC
  const ALL_LED_OFF_H: byte := 0xFD
  const PRESCALE_REG: byte := 0xFE

  /** MODE1 values written around the prescaler: SLEEP set, then RESTART set. */
  const MODE1_SLEEP: byte := 0x10
  const MODE1_RESTART: byte := 0x80

  /** The internal oscillator frequency the prescale formula divides. */
  const OSCILLATOR_HZ := 25000000

  /** The frequency the constructor programs. */
  const DEFAULT_FREQUENCY := 50

  datatype PcaError =
    | OpenFailed          // open() of /dev/i2c-<n> returned a negative descriptor
    | SelectFailed        // ioctl(I2C_SLAVE) returned a negative value
    | WriteFailed         // a register write frame was not sent whole
    | AddressWriteFailed  // the register-address byte of a read was not sent
    | ReadFailed          // the register value byte was not received

  /** One register write frame [reg, value]. */
  datatype Frame = Frame(reg: byte, value: byte)

  // ---------------------------------------------------------------------------
  // Pure parts of the protocol

  /** `v & 0xFF` passed as a `uint8_t`. */
  function LowByte(v: int): byte { v % 0x100 }

  /** `v >> 8` passed as a `uint8_t` (arithmetic shift, then truncation). */
  function HighByte(v: int): byte { (v / 0x100) % 0x100 }

  /** `base + 4 * channel` passed as a `uint8_t`: the code does not check the channel. */
  function ChannelRegister(base: int, channel: int): byte { (base + 4 * channel) % 0x100 }

  function LedOnL(channel: int): byte { ChannelRegister(0x06, channel) }
  function LedOnH(channel: int): byte { ChannelRegister(0x07, channel) }
  function LedOffL(channel: int): byte { ChannelRegister(0x08, channel) }
  function LedOffH(channel: int): byte { ChannelRegister(0x09, channel) }

  /**
   * The frames setPWM sends, in order: four frames to four different
   * registers, whatever the channel.
   */
  function PwmFrames(channel: int, on: int, off: int): (frames: seq<Frame>)
    ensures |frames| == 4
    ensures forall i, j :: 0 <= i < j < |frames| ==> frames[i].reg != frames[j].reg
  {
    [ Frame(LedOnL(channel), LowByte(on)), Frame(LedOnH(channel), HighByte(on)),
      Frame(LedOffL(channel), LowByte(off)), Frame(LedOffH(channel), HighByte(off)) ]
  }

  /**
   * The frames setPWMFreq sends, in order: sleep, prescaler, restart. The
   * prescaler is written only right after MODE1 has put the chip to sleep, and
   * the sequence ends by restarting it.
   */
  function FrequencyFrames(prescale: byte): (frames: seq<Frame>)
    ensures |frames| == 3
    ensures forall k :: 0 <= k < |frames| && frames[k].reg == PRESCALE_REG ==>
              0 < k && frames[k - 1] == Frame(MODE1_REG, MODE1_SLEEP) && frames[k].value == prescale
    ensures frames[|frames| - 1] == Frame(MODE1_REG, MODE1_RESTART)
  {
    [ Frame(MODE1_REG, MODE1_SLEEP), Frame(PRESCALE_REG, prescale), Frame(MODE1_REG, MODE1_RESTART) ]
  }

  /** The register file after the chip has received `frames`. */
  function Apply(registers: seq<byte>, frames: seq<Frame>): (after: seq<byte>)
    requires |registers| == 256
    ensures |after| == 256
    decreases |frames|
  {
    if frames == [] then registers
    else Apply(registers[frames[0].reg := frames[0].value], frames[1..])
  }

  /** The write calls that carry `frames`, one `[register, value]` buffer each. */
  function FrameWrites(frames: seq<Frame>): seq<OsCall> {
    seq(|frames|, i requires 0 <= i < |frames| => Write([frames[i].reg, frames[i].value]))
  }

  /** Every frame goes out as one two-byte write, register first. */
  lemma FrameWritesTwoBytes(frames: seq<Frame>)
    ensures |FrameWrites(frames)| == |frames|
    ensures forall i :: 0 <= i < |frames| ==>
              FrameWrites(frames)[i].Write? && |FrameWrites(frames)[i].bytes| == 2
              && FrameWrites(frames)[i].bytes[0] == frames[i].reg
              && FrameWrites(frames)[i].bytes[1] == frames[i].value
  {
  }

  /** The writes of two frame sequences in a row are the writes of their concatenation. */
  lemma FrameWritesAppend(a: seq<Frame>, b: seq<Frame>)
    ensures FrameWrites(a + b) == FrameWrites(a) + FrameWrites(b)
  {
  }

  /**
   * How many leading frames of a sequence got through, given what each
   * `::write` returned: the first count other than 2 throws and stops the sequence.
   */
  function Delivered(written: seq<int>): (n: nat)
    ensures n <= |written|
    ensures forall i :: 0 <= i < n ==> written[i] == 2
    ensures n < |written| ==> written[n] != 2
  {
    if written == [] || written[0] != 2 then 0 else 1 + Delivered(written[1..])
  }

  /** How many frames were handed to `::write`: the delivered ones and the one that failed. */
  function Attempted(written: seq<int>): nat {
    if Delivered(written) < |written| then Delivered(written) + 1 else |written|
  }

  /** Conversion of a real to an integer, truncating toward zero like a C cast. */
  function Truncate(x: real): (r: int)
    ensures x >= 0.0 ==> r as real <= x < r as real + 1.0
    ensures x < 0.0 ==> r as real - 1.0 < x <= r as real
  {
    if x >= 0.0 then x.Floor else -((-x).Floor)
  }

  /** The unconverted prescale of setPWMFreq: trunc(25 MHz / (4096 f) - 1). */
  function PrescaleValue(frequency: real): (prescale: int)
    requires frequency > 0.0
    ensures prescale >= 0
  {
    Truncate(OSCILLATOR_HZ as real / (4096.0 * frequency) - 1.0)
  }

  /** The frequencies for which the `uint8_t` cast of the prescale is defined. */
  predicate PrescaleRepresentable(frequency: real) {
    frequency > 0.0 && 0 <= PrescaleValue(frequency) <= 255
  }

  // ---------------------------------------------------------------------------
  // Lemmas about the protocol

  /** The low and high byte of a 12-bit count rebuild it, and the high byte is a nibble. */
  lemma ByteSplit(v: int)
    requires 0 <= v <= 4095
    ensures HighByte(v) * 256 + LowByte(v) == v
    ensures HighByte(v) <= 15
  {
  }

  /** For channels 0..15 the four registers lie in 0x06..0x45 and are consecutive. */
  lemma ChannelRegisters(channel: int)
    requires 0 <= channel <= 15
    ensures LedOnL(channel) == 0x06 + 4 * channel
    ensures LedOnH(channel) == LedOnL(channel) + 1
    ensures LedOffL(channel) == LedOnL(channel) + 2
    ensures LedOffH(channel) == LedOnL(channel) + 3
    ensures 0x06 <= LedOnL(channel) && LedOffH(channel) <= 0x45
  {
  }

  /** Different channels in 0..15 touch disjoint registers. */
  lemma ChannelsDisjoint(c: int, d: int)
    requires 0 <= c <= 15 && 0 <= d <= 15 && c != d
    ensures {LedOnL(c), LedOnH(c), LedOffL(c), LedOffH(c)} !! {LedOnL(d), LedOnH(d), LedOffL(d), LedOffH(d)}
  {
    ChannelRegisters(c);
    ChannelRegisters(d);
  }

  /** A frame for another register does not disturb `reg`. */
  lemma ApplyOther(registers: seq<byte>, frames: seq<Frame>, reg: byte)
    requires |registers| == 256
    requires forall i :: 0 <= i < |frames| ==> frames[i].reg != reg
    ensures Apply(registers, frames)[reg] == registers[reg]
    decreases |frames|
  {
    if frames != [] {
      ApplyOther(registers[frames[0].reg := frames[0].value], frames[1..], reg);
    }
  }

  /** The last frame for a register decides its value. */
  lemma ApplyLast(registers: seq<byte>, frames: seq<Frame>, k: nat)
    requires |registers| == 256 && k < |frames|
    requires forall i :: k < i < |frames| ==> frames[i].reg != frames[k].reg
    ensures Apply(registers, frames)[frames[k].reg] == frames[k].value
    decreases |frames|
  {
    var next := registers[frames[0].reg := frames[0].value];
    if k == 0 {
      ApplyOther(next, frames[1..], frames[0].reg);
    } else {
      ApplyLast(next, frames[1..], k - 1);
    }
  }

  /** Receiving one more frame updates one more register. */
  lemma {:induction false} ApplySnoc(registers: seq<byte>, frames: seq<Frame>, k: nat)
    requires |registers| == 256 && k < |frames|
    ensures Apply(registers, frames[..k + 1]) == Apply(registers, frames[..k])[frames[k].reg := frames[k].value]
    decreases k
  {
    if k > 0 {
      var next := registers[frames[0].reg := frames[0].value];
      assert frames[..k + 1][1..] == frames[1..][..k];
      assert frames[..k][1..] == frames[1..][..k - 1];
      ApplySnoc(next, frames[1..], k - 1);
    }
  }

  /**
   * Round trip of setPWM: for channel 0..15 and 12-bit counts, each register
   * pair read back as hi * 256 + lo gives the count, and no other register changes.
   */
  lemma PwmRoundTrip(registers: seq<byte>, channel: int, on: int, off: int)
    requires |registers| == 256
    requires 0 <= channel <= 15 && 0 <= on <= 4095 && 0 <= off <= 4095
    ensures var after := Apply(registers, PwmFrames(channel, on, off));
      && (after[LedOnH(channel)] as int) * 256 + after[LedOnL(channel)] == on
      && (after[LedOffH(channel)] as int) * 256 + after[LedOffL(channel)] == off
      && after[LedOnH(channel)] <= 15 && after[LedOffH(channel)] <= 15
      && forall reg: byte :: reg !in {LedOnL(channel), LedOnH(channel), LedOffL(channel), LedOffH(channel)}
           ==> after[reg] == registers[reg]
  {
    var frames := PwmFrames(channel, on, off);
    ChannelRegisters(channel);
    ByteSplit(on);
    ByteSplit(off);
    ApplyLast(registers, frames, 0);
    ApplyLast(registers, frames, 1);
    ApplyLast(registers, frames, 2);
    ApplyLast(registers, frames, 3);
    forall reg: byte | reg !in {LedOnL(channel), LedOnH(channel), LedOffL(channel), LedOffH(channel)}
      ensures Apply(registers, frames)[reg] == registers[reg]
    {
      ApplyOther(registers, frames, reg);
    }
  }

  /** After the whole frequency sequence MODE1 holds RESTART and PRE_SCALE the prescale. */
  lemma FrequencyLeavesRestart(registers: seq<byte>, prescale: byte)
    requires |registers| == 256
    ensures Apply(registers, FrequencyFrames(prescale))[MODE1_REG] == MODE1_RESTART
    ensures Apply(registers, FrequencyFrames(prescale))[PRESCALE_REG] == prescale
    ensures forall reg: byte :: reg != MODE1_REG && reg != PRESCALE_REG ==>
              Apply(registers, FrequencyFrames(prescale))[reg] == registers[reg]
  {
    var frames := FrequencyFrames(prescale);
    ApplyLast(registers, frames, 2);
    ApplyLast(registers, frames, 1);
    forall reg: byte | reg != MODE1_REG && reg != PRESCALE_REG
      ensures Apply(registers, frames)[reg] == registers[reg]
    {
      ApplyOther(registers, frames, reg);
    }
  }

  /** A non-negative fraction below one. */
  lemma QuotientBelowOne(m: real, d: real)
    requires 0.0 <= m < d
    ensures 0.0 <= m / d < 1.0
  {
    var r := m / d;
    assert r * d == m;
    assert (1.0 - r) * d == d - m;
  }

  /** Real division of integers splits into the integer quotient and the fraction of the remainder. */
  lemma QuotientSplit(n: int, d: int)
    requires n >= 0 && d > 0
    ensures n as real / d as real == (n / d) as real + (n % d) as real / d as real
    ensures 0.0 <= (n % d) as real / d as real < 1.0
  {
    var q := n / d;
    var m := n % d;
    assert n == q * d + m;
    assert n as real == q as real * d as real + m as real;
    assert (q as real * d as real) / d as real == q as real;
    assert (q as real * d as real + m as real) / d as real == (q as real * d as real) / d as real + m as real / d as real;
    QuotientBelowOne(m as real, d as real);
  }

  /**
   * For an integer frequency f the truncated prescale is the integer quotient
   * 25000000 / (4096 f) minus one as long as that quotient is at least 1
   * (f <= 6103); above that the real value lies in (-1, 0) and truncates to 0.
   */
  lemma PrescaleOfInteger(f: int)
    requires f > 0
    ensures f <= 6103 ==> PrescaleValue(f as real) == OSCILLATOR_HZ / (4096 * f) - 1
    ensures f > 6103 ==> PrescaleValue(f as real) == 0
  {
    var d := 4096 * f;
    var q := OSCILLATOR_HZ / d;
    var x := OSCILLATOR_HZ as real / (4096.0 * f as real);
    assert 4096.0 * f as real == d as real;
    QuotientSplit(OSCILLATOR_HZ, d);
    var frac := (OSCILLATOR_HZ % d) as real / d as real;
    assert x == q as real + frac;
    if f <= 6103 {
      assert q >= 1;
      assert (x - 1.0).Floor == q - 1;
    } else {
      assert q == 0;
      assert 0.0 <= x < 1.0;
      assert (-(x - 1.0)).Floor == 0;
    }
  }

  /** The constructor's 50 Hz gives prescale 121. */
  lemma PrescaleAt50Hz()
    ensures PrescaleValue(DEFAULT_FREQUENCY as real) == 121
    ensures PrescaleRepresentable(DEFAULT_FREQUENCY as real)
  {
    PrescaleOfInteger(DEFAULT_FREQUENCY);
  }

  // ---------------------------------------------------------------------------
  // The driver

  class PCA9685 {
    const address: byte
    const fileDescriptor: int
    var calls: seq<OsCall>         // system calls issued on fileDescriptor
    var registers: seq<byte>       // the chip's register file

    ghost predicate Valid()
      reads this
    {
      |registers| == 256
    }

    /** The object once the bus is open and the slave selected. */
    constructor (address: byte, fileDescriptor: int, calls: seq<OsCall>, chip: seq<byte>)
      requires |chip| == 256
      ensures Valid()
      ensures this.address == address && this.fileDescriptor == fileDescriptor
      ensures this.calls == calls && registers == chip
    {
      this.address := address;
      this.fileDescriptor := fileDescriptor;
      this.calls := calls;
      registers := chip;
    }

    /** Sends exactly the frame [reg, value]; anything but 2 bytes written throws. */
    method WriteRegister(reg: byte, value: byte, written: int) returns (r: Outcome<PcaError>)
      requires Valid()
      modifies this`calls, this`registers
      ensures Valid()
      ensures calls == old(calls) + [Write([reg, value])]
      ensures written == 2 ==> r == Pass && registers == old(registers)[reg := value]
      ensures written != 2 ==> r == Fail(WriteFailed) && registers == old(registers)
    {
      calls := calls + [Write([reg, value])];
      if written != 2 {
        return Fail(WriteFailed);
      }
      registers := registers[reg := value];
      return Pass;
    }

    /**
     * Writes the 1-byte register address, then reads one byte. A short address
     * write throws before any read is attempted; a short read throws.
     */
    method ReadRegister(reg: byte, written: int, readResult: int) returns (r: Result<byte, PcaError>)
      requires Valid()
      modifies this`calls
      ensures written != 1 ==> r == Failure(AddressWriteFailed) && calls == old(calls) + [Write([reg])]
      ensures written == 1 ==> calls == old(calls) + [Write([reg]), Read(1)]
      ensures written == 1 && readResult != 1 ==> r == Failure(ReadFailed)
      ensures written == 1 && readResult == 1 ==> r == Success(registers[reg])
    {
      calls := calls + [Write([reg])];
      if written != 1 {
        return Failure(AddressWriteFailed);
      }
      calls := calls + [Read(1)];
      if readResult != 1 {
        return Failure(ReadFailed);
      }
      return Success(registers[reg]);
    }

    /**
     * Puts the chip to sleep, writes the prescaler, restarts it. `written`
     * holds what the three `::write` calls return; the first short write throws.
     */
    method SetPWMFreq(frequency: real, written: seq<int>) returns (r: Outcome<PcaError>)
      requires Valid()
      requires PrescaleRepresentable(frequency)
      requires |written| == 3
      modifies this`calls, this`registers
      ensures Valid()
      ensures var frames := FrequencyFrames(PrescaleValue(frequency));
        && calls == old(calls) + FrameWrites(frames[..Attempted(written)])
        && registers == Apply(old(registers), frames[..Delivered(written)])
      ensures r.Pass? <==> Delivered(written) == 3
      ensures r.Fail? ==> r.error == WriteFailed
    {
      var prescale: byte := PrescaleValue(frequency);
      ghost var frames := FrequencyFrames(prescale);
      ghost var regs0 := registers;
      assert frames[..0] == [];
      r := WriteRegister(MODE1_REG, MODE1_SLEEP, written[0]);
      if r.Fail? {
        return;
      }
      ApplySnoc(regs0, frames, 0);
      r := WriteRegister(PRESCALE_REG, prescale, written[1]);
      if r.Fail? {
        return;
      }
      ApplySnoc(regs0, frames, 1);
      r := WriteRegister(MODE1_REG, MODE1_RESTART, written[2]);
      if r.Fail? {
        return;
      }
      ApplySnoc(regs0, frames, 2);
    }

    /**
     * Writes the four LED registers of `channel`: the low and high byte of the
     * on count, then of the off count. `written` holds what the four `::write`
     * calls return; the first short write throws and stops the sequence.
     */
    method SetPWM(channel: int, on: int, off: int, written: seq<int>) returns (r: Outcome<PcaError>)
      requires Valid()
      requires |written| == 4
      modifies this`calls, this`registers
      ensures Valid()
      ensures var frames := PwmFrames(channel, on, off);
        && calls == old(calls) + FrameWrites(frames[..Attempted(written)])
        && registers == Apply(old(registers), frames[..Delivered(written)])
      ensures r.Pass? <==> Delivered(written) == 4
      ensures r.Fail? ==> r.error == WriteFailed
    {
      ghost var frames := PwmFrames(channel, on, off);
      ghost var regs0 := registers;
      assert frames[..0] == [];
      r := WriteRegister(LedOnL(channel), LowByte(on), written[0]);
      if r.Fail? {
        return;
      }
      ApplySnoc(regs0, frames, 0);
      r := WriteRegister(LedOnH(channel), HighByte(on), written[1]);
      if r.Fail? {
        return;
      }
      ApplySnoc(regs0, frames, 1);
      r := WriteRegister(LedOffL(channel), LowByte(off), written[2]);
      if r.Fail? {
        return;
      }
      ApplySnoc(regs0, frames, 2);
      r := WriteRegister(LedOffH(channel), HighByte(off), written[3]);
      if r.Fail? {
        return;
      }
      ApplySnoc(regs0, frames, 3);
    }

    /** The destructor. */
    method Close()
      modifies this`calls
      ensures calls == old(calls) + [OsCall.Close]
    {
      calls := calls + [OsCall.Close];
    }
  }

  /**
   * The constructor: opens /dev/i2c-<i2cBus>, selects the slave (closing the
   * descriptor and throwing when that fails), then programs 50 Hz. An exception
   * out of that last step leaves the descriptor open, since the destructor of a
   * partly constructed object does not run. `calls` is every system call made.
   */
  method Construct(i2cBus: int, addr: int, fd: int, ioctlResult: int, written: seq<int>, chip: seq<byte>)
    returns (r: Result<PCA9685, PcaError>, calls: seq<OsCall>)
    requires |chip| == 256 && |written| == 3
    ensures fd < 0 ==> r == Failure(OpenFailed) && calls == [OpenAdapter(i2cBus)]
    ensures fd >= 0 && ioctlResult < 0 ==>
              r == Failure(SelectFailed) && calls == [OpenAdapter(i2cBus), Ioctl(addr % 256), OsCall.Close]
    ensures fd >= 0 && ioctlResult >= 0 ==>
              var frames := FrequencyFrames(121);
              && calls == [OpenAdapter(i2cBus), Ioctl(addr % 256)] + FrameWrites(frames[..Attempted(written)])
              && (r.Success? <==> Delivered(written) == 3)
              && (r.Failure? ==> r.error == WriteFailed)
    ensures r.Success? ==>
              fresh(r.value) && r.value.Valid() && r.value.address == addr % 256 && r.value.fileDescriptor == fd
              && r.value.calls == calls
              && r.value.registers == Apply(chip, FrequencyFrames(121))
              && r.value.registers[MODE1_REG] == MODE1_RESTART
  {
    calls := [OpenAdapter(i2cBus)];
    if fd < 0 {
      return Failure(OpenFailed), calls;
    }
    var address: byte := addr % 256;
    calls := calls + [Ioctl(address)];
    if ioctlResult < 0 {
      calls := calls + [OsCall.Close];
      return Failure(SelectFailed), calls;
    }
    var pca := new PCA9685(address, fd, calls, chip);
    PrescaleAt50Hz();
    var o := pca.SetPWMFreq(DEFAULT_FREQUENCY as real, written);
    calls := pca.calls;
    if o.Fail? {
      return Failure(o.error), calls;
    }
    assert FrequencyFrames(121)[..3] == FrequencyFrames(121);
    FrequencyLeavesRestart(chip, 121);
    return Success(pca), calls;
  }
}
