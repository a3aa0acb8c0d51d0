/**
 * The CONF register word of the AS5600 magnetic encoder, as the encoder test
 * program builds it (tests/as5600_test.cpp): seven settings packed by shifts
 * and ORs into a 16-bit word. Power mode, hysteresis, output stage, PWM
 * frequency and slow filter are two bits each, the fast filter threshold
 * three bits and the watchdog one bit, at bit offsets 0, 2, 4, 6, 8, 10 and 13.
 */
module As5600Conf {

  /** The settings, each held in a `uint8_t` as in the program. */
  datatype Conf = Conf(pm: bv8, hyst: bv8, outs: bv8, pwmf: bv8, sf: bv8, fth: bv8, wd: bv8)

  const PM_SHIFT: bv32 := 0
  const HYST_SHIFT: bv32 := 2
  const OUTS_SHIFT: bv32 := 4
  const PWMF_SHIFT: bv32 := 6
  const SF_SHIFT: bv32 := 8
  const FTH_SHIFT: bv32 := 10
  const WD_SHIFT: bv32 := 13

  /** The widths the setting comments document: 2, 2, 2, 2, 2, 3 and 1 bits. */
  predicate FieldsInRange(c: Conf) {
    c.pm < 4 && c.hyst < 4 && c.outs < 4 && c.pwmf < 4 && c.sf < 4 && c.fth < 8 && c.wd < 2
  }

  /** The bits of setting `x` shifted left by `s` that survive the store into a `uint16_t`. */
  function Placed(x: bv8, s: bv32): bv16
    requires s < 16
  {
    ((x as bv32 << s) & 0xFFFF) as bv16
  }

  /**
   * `CONF |= x << s`: integer promotion, shift, OR, and the store back into a
   * `uint16_t`. The store drops bits 16 and up of the OR, which are the
   * dropped bits of the shifted setting, since CONF has none there.
   */
  function OrShifted(conf: bv16, x: bv8, s: bv32): (r: bv16)
    requires s < 16
    ensures r & conf == conf
    ensures r & Placed(x, s) == Placed(x, s)
  {
    conf | Placed(x, s)
  }

  /** OrShifted is the statement as written: OR at `int` width, then the store into a `uint16_t`. */
  lemma OrShiftedAsWritten(conf: bv16, x: bv8, s: bv32)
    requires s < 16
    ensures OrShifted(conf, x, s) == ((conf as bv32 | (x as bv32 << s)) & 0xFFFF) as bv16
  {
  }

  /**
   * The seven `|=` steps, from CONF = 0x0000. No step clears a bit an earlier
   * one set, so every setting's placed bits are in the word; in-range
   * settings leave bits 14 and 15 clear.
   */
  function Pack(c: Conf): (word: bv16)
    ensures word & Placed(c.pm, PM_SHIFT) == Placed(c.pm, PM_SHIFT)
    ensures word & Placed(c.hyst, HYST_SHIFT) == Placed(c.hyst, HYST_SHIFT)
    ensures word & Placed(c.outs, OUTS_SHIFT) == Placed(c.outs, OUTS_SHIFT)
    ensures word & Placed(c.pwmf, PWMF_SHIFT) == Placed(c.pwmf, PWMF_SHIFT)
    ensures word & Placed(c.sf, SF_SHIFT) == Placed(c.sf, SF_SHIFT)
    ensures word & Placed(c.fth, FTH_SHIFT) == Placed(c.fth, FTH_SHIFT)
    ensures word & Placed(c.wd, WD_SHIFT) == Placed(c.wd, WD_SHIFT)
    ensures FieldsInRange(c) ==> word < 0x4000
  {
    var conf: bv16 := 0x0000;
    var conf := OrShifted(conf, c.pm, PM_SHIFT);
    var conf := OrShifted(conf, c.hyst, HYST_SHIFT);
    var conf := OrShifted(conf, c.outs, OUTS_SHIFT);
    var conf := OrShifted(conf, c.pwmf, PWMF_SHIFT);
    var conf := OrShifted(conf, c.sf, SF_SHIFT);
    var conf := OrShifted(conf, c.fth, FTH_SHIFT);
    OrShifted(conf, c.wd, WD_SHIFT)
  }

  /** `(conf >> s) & mask`, as a uint8_t. */
  function Field(word: bv16, s: bv16, mask: bv16): bv8
    requires s < 16 && mask < 0x100
  {
    ((word >> s) & mask) as bv8
  }

  /** Reading the settings back out of a CONF word. */
  function Unpack(word: bv16): (c: Conf)
    ensures FieldsInRange(c)
  {
    Conf(Field(word, 0, 3), Field(word, 2, 3), Field(word, 4, 3), Field(word, 6, 3),
         Field(word, 8, 3), Field(word, 10, 7), Field(word, 13, 1))
  }

  /** The bit mask a setting of `width` bits at offset `s` occupies. */
  function FieldMask(s: bv16, width: bv16): bv16
    requires s < 16 && width <= 16 - s
  {
    ((1 << width) - 1) << s
  }

  /**
   * The fields at the shift offsets Pack uses, with the widths FieldsInRange
   * allows, are pairwise disjoint and together cover exactly bits 0 to 13.
   */
  lemma FieldsDisjoint()
    ensures var masks := [FieldMask(PM_SHIFT as bv16, 2), FieldMask(HYST_SHIFT as bv16, 2),
                          FieldMask(OUTS_SHIFT as bv16, 2), FieldMask(PWMF_SHIFT as bv16, 2),
                          FieldMask(SF_SHIFT as bv16, 2), FieldMask(FTH_SHIFT as bv16, 3),
                          FieldMask(WD_SHIFT as bv16, 1)];
      && (forall i, j :: 0 <= i < j < |masks| ==> masks[i] & masks[j] == 0)
      && masks[0] | masks[1] | masks[2] | masks[3] | masks[4] | masks[5] | masks[6] == 0x3FFF
  {
  }

  /** An in-range setting, placed at its shift, stays inside its own field. */
  lemma SettingsWithinFields(c: Conf)
    requires FieldsInRange(c)
    ensures Placed(c.pm, PM_SHIFT) & !FieldMask(PM_SHIFT as bv16, 2) == 0
    ensures Placed(c.hyst, HYST_SHIFT) & !FieldMask(HYST_SHIFT as bv16, 2) == 0
    ensures Placed(c.outs, OUTS_SHIFT) & !FieldMask(OUTS_SHIFT as bv16, 2) == 0
    ensures Placed(c.pwmf, PWMF_SHIFT) & !FieldMask(PWMF_SHIFT as bv16, 2) == 0
    ensures Placed(c.sf, SF_SHIFT) & !FieldMask(SF_SHIFT as bv16, 2) == 0
    ensures Placed(c.fth, FTH_SHIFT) & !FieldMask(FTH_SHIFT as bv16, 3) == 0
    ensures Placed(c.wd, WD_SHIFT) & !FieldMask(WD_SHIFT as bv16, 1) == 0
  {
  }

  /** For in-range settings no store truncates anything, and bits 14 and 15 stay clear. */
  lemma PackFits(c: Conf)
    requires FieldsInRange(c)
    ensures Pack(c) as bv32 ==
              c.pm as bv32 | (c.hyst as bv32 << 2) | (c.outs as bv32 << 4) | (c.pwmf as bv32 << 6)
              | (c.sf as bv32 << 8) | (c.fth as bv32 << 10) | (c.wd as bv32 << 13)
  {
  }

  /** Each in-range setting can be read back from the word: packing loses nothing. */
  lemma UnpackPack(c: Conf)
    requires FieldsInRange(c)
    ensures Unpack(Pack(c)) == c
  {
    PackFits(c);
  }

  /** Every word with bits 14 and 15 clear is the packing of exactly the settings read from it. */
  lemma PackUnpack(word: bv16)
    requires word < 0x4000
    ensures Pack(Unpack(word)) == word
  {
  }

  /** So packing is injective on in-range settings. */
  lemma PackInjective(a: Conf, b: Conf)
    requires FieldsInRange(a) && FieldsInRange(b)
    ensures Pack(a) == Pack(b) <==> a == b
  {
    UnpackPack(a);
    UnpackPack(b);
  }

  /** The program's settings: normal power mode, hysteresis of 3 LSBs, everything else 0. */
  const FILE_SETTINGS: Conf := Conf(0x00, 0x03, 0x00, 0x00, 0x00, 0x00, 0x00)

  lemma FileSettingsWord()
    ensures FieldsInRange(FILE_SETTINGS)
    ensures Pack(FILE_SETTINGS) == 12
  {
  }

  /**
   * Nothing masks a setting to its width: a hysteresis of 4 spills into the
   * output-stage bits and gives the same word as output stage 1.
   */
  lemma OutOfRangeOverlaps()
    ensures var wide := Conf(0x00, 0x04, 0x00, 0x00, 0x00, 0x00, 0x00);
            var other := Conf(0x00, 0x00, 0x01, 0x00, 0x00, 0x00, 0x00);
      && !FieldsInRange(wide) && wide != other && Pack(wide) == Pack(other)
  {
  }
}
