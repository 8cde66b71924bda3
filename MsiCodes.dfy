/**
 * The MSI controller codes of src/z390.rs (MsiMode, MsiSpeed, MsiBrightness),
 * the translation from the generic settings, and the packed
 * speed-and-brightness byte of a zone record.
 */
module MsiCodes {
  import opened Options
  import opened Colors

  // ---------------------------------------------------------------------------
  // Controller codes (MsiMode, MsiSpeed, MsiBrightness) and the translation
  // from the generic settings

  const MsiModeStatic: Byte := 1

  // The speed and brightness codes are u8 values that only feed the bit
  // packing below, so they are bit vectors here.
  const MsiSpeedLow: bv8 := 0
  const MsiSpeedMedium: bv8 := 1
  const MsiSpeedHigh: bv8 := 2

  /** `MsiBrightness::Level100`; the levels 10% .. 100% are the codes 1 .. 10, `Off` is 0. */
  const MsiBrightnessLevel100: bv8 := 10

  function MsiModeCode(mode: RgbMode): (code: Byte)
    ensures code == 1
  {
    match mode
    case Static => MsiModeStatic
  }

  /** The generic mode an effect byte stands for, if any. */
  function ModeOfEffect(effect: Byte): (mode: Option<RgbMode>)
    ensures mode.Some? <==> effect == MsiModeStatic
    ensures mode.Some? ==> MsiModeCode(mode.value) == effect
  {
    if effect == MsiModeStatic then Some(Static) else None
  }

  function MsiSpeedCode(speed: RgbSpeed): (code: bv8)
    ensures code <= MsiSpeedHigh
  {
    match speed
    case Slow => MsiSpeedLow
    case Medium => MsiSpeedMedium
    case Fast => MsiSpeedHigh
  }

  /** The generic speed a speed code stands for, if any. */
  function SpeedOfCode(code: int): (speed: Option<RgbSpeed>)
    ensures speed.Some? <==> 0 <= code <= 2
    ensures speed.Some? ==> MsiSpeedCode(speed.value) as int == code
  {
    if code == 0 then Some(Slow)
    else if code == 1 then Some(Medium)
    else if code == 2 then Some(Fast)
    else None
  }

  function MsiBrightnessCode(brightness: RgbBrightness): (code: bv8)
    ensures 1 <= code <= MsiBrightnessLevel100
  {
    match brightness
    case Level10 => 1
    case Level20 => 2
    case Level30 => 3
    case Level40 => 4
    case Level50 => 5
    case Level60 => 6
    case Level70 => 7
    case Level80 => 8
    case Level90 => 9
    case Level100 => 10
  }

  /** The generic brightness a brightness code stands for; `Off` (0) has no generic level. */
  function BrightnessOfCode(code: int): (brightness: Option<RgbBrightness>)
    ensures brightness.Some? <==> 1 <= code <= 10
    ensures brightness.Some? ==> MsiBrightnessCode(brightness.value) as int == code
  {
    match code
    case 1 => Some(Level10)
    case 2 => Some(Level20)
    case 3 => Some(Level30)
    case 4 => Some(Level40)
    case 5 => Some(Level50)
    case 6 => Some(Level60)
    case 7 => Some(Level70)
    case 8 => Some(Level80)
    case 9 => Some(Level90)
    case 10 => Some(Level100)
    case _ => None
  }

  /** The translation tables lose nothing: each code reads back as the setting it came from. */
  lemma CodesRoundTrip(mode: RgbMode, speed: RgbSpeed, brightness: RgbBrightness)
    ensures ModeOfEffect(MsiModeCode(mode)) == Some(mode)
    ensures SpeedOfCode(MsiSpeedCode(speed) as int) == Some(speed)
    ensures BrightnessOfCode(MsiBrightnessCode(brightness) as int) == Some(brightness)
  {
  }

  // ---------------------------------------------------------------------------
  // The packed speed-and-brightness byte

  lemma ShiftIsDiv(x: bv8)
    ensures (x >> 2) as int == (x as int) / 4
  {
  }

  lemma MaskIsMod(x: bv8)
    ensures (x & 3) as int == (x as int) % 4
  {
  }

  /** `(brightness << 2) | (speed & 0x03)` on u8: both fields can be read back with `>> 2` and `& 3`. */
  function PackBits(brightnessCode: bv8, speedCode: bv8): (flags: bv8)
    ensures brightnessCode < 64 ==> flags >> 2 == brightnessCode
    ensures flags & 3 == speedCode & 3
  {
    (brightnessCode << 2) | (speedCode & 3)
  }

  /**
   * The byte a zone gets for a brightness and a speed, as stored in its
   * record: brightness in the high six bits, speed in the low two, so both
   * settings are recoverable from it.
   */
  function PackedFlags(brightness: RgbBrightness, speed: RgbSpeed): (flags: Byte)
    ensures BrightnessOfCode(flags / 4) == Some(brightness)
    ensures SpeedOfCode(flags % 4) == Some(speed)
  {
    var bits := PackBits(MsiBrightnessCode(brightness), MsiSpeedCode(speed));
    ShiftIsDiv(bits);
    MaskIsMod(bits);
    assert MsiSpeedCode(speed) & 3 == MsiSpeedCode(speed);
    CodesRoundTrip(Static, speed, brightness);
    bits as int
  }

  /** Brightness 50% and fast speed: code 5 shifted left by two, or code 2. */
  lemma PackedFlagsExample()
    ensures PackedFlags(Level50, Fast) == 0x16
  {
  }

  /** Two different settings pairs never give the same byte. */
  lemma PackedFlagsInjective(b1: RgbBrightness, s1: RgbSpeed, b2: RgbBrightness, s2: RgbSpeed)
    ensures PackedFlags(b1, s1) == PackedFlags(b2, s2) ==> b1 == b2 && s1 == s2
  {
    var f1, f2 := PackedFlags(b1, s1), PackedFlags(b2, s2);
    if f1 == f2 {
      assert Some(b1) == BrightnessOfCode(f1 / 4) == Some(b2);
      assert Some(s1) == SpeedOfCode(f1 % 4) == Some(s2);
    }
  }
}
