/**
 * The RTX 2080 RGB Fusion driver of src/rtx2080.rs: a single-zone device that
 * caches its colour, mode and speed and, on every display, writes two 4-byte
 * packets over I2C — the colour, then the mode and speed.
 */
module Rtx2080Driver {
  import opened Options
  import opened Colors

  const LedColorAddress: Byte := 0x40
  const ModeSpeedAddress: Byte := 0x88
  /** The fixed last byte of every mode-and-speed packet. */
  const ModeSpeedTrailer: Byte := 0x63
  const PacketSize: nat := 4

  // ---------------------------------------------------------------------------
  // RGB Fusion codes

  /** `RgbFusionMode` for the generic mode: Static is 0x01. */
  function FusionModeCode(mode: RgbMode): (code: Byte)
    ensures code == 0x01
  {
    match mode
    case Static => 0x01
  }

  function ModeOfFusionCode(code: Byte): (mode: Option<RgbMode>)
    ensures mode.Some? <==> code == 0x01
    ensures mode.Some? ==> FusionModeCode(mode.value) == code
  {
    if code == 0x01 then Some(Static) else None
  }

  /** `RgbFusionSpeed` for the generic speed: Slowest 0x00, Normal 0x05, Fastest 0x09. */
  function FusionSpeedCode(speed: RgbSpeed): (code: Byte)
    ensures code == 0x00 || code == 0x05 || code == 0x09
  {
    match speed
    case Slow => 0x00
    case Medium => 0x05
    case Fast => 0x09
  }

  function SpeedOfFusionCode(code: Byte): (speed: Option<RgbSpeed>)
    ensures speed.Some? <==> code in {0x00, 0x05, 0x09}
    ensures speed.Some? ==> FusionSpeedCode(speed.value) == code
  {
    if code == 0x00 then Some(Slow)
    else if code == 0x05 then Some(Medium)
    else if code == 0x09 then Some(Fast)
    else None
  }

  /** The translations lose nothing: each code reads back as the setting it came from. */
  lemma FusionCodesRoundTrip(mode: RgbMode, speed: RgbSpeed)
    ensures ModeOfFusionCode(FusionModeCode(mode)) == Some(mode)
    ensures SpeedOfFusionCode(FusionSpeedCode(speed)) == Some(speed)
  {
  }

  // ---------------------------------------------------------------------------
  // The two packets

  /** What one I2C packet tells the card. */
  datatype Command = SetLedColor(color: Color) | SetModeSpeed(mode: RgbMode, speed: RgbSpeed)

  /** The colour packet: its address, then red, green and blue. */
  function ColorPacket(color: Color): (packet: seq<Byte>)
    ensures |packet| == PacketSize && packet[0] == LedColorAddress
  {
    [LedColorAddress, color.r, color.g, color.b]
  }

  /** The mode-and-speed packet: its address, the two codes and the fixed trailer. */
  function ModeSpeedPacket(mode: RgbMode, speed: RgbSpeed): (packet: seq<Byte>)
    ensures |packet| == PacketSize && packet[0] == ModeSpeedAddress && packet[3] == ModeSpeedTrailer
  {
    [ModeSpeedAddress, FusionModeCode(mode), FusionSpeedCode(speed), ModeSpeedTrailer]
  }

  function EncodeCommand(command: Command): (packet: seq<Byte>)
    ensures |packet| == PacketSize
  {
    match command
    case SetLedColor(color) => ColorPacket(color)
    case SetModeSpeed(mode, speed) => ModeSpeedPacket(mode, speed)
  }

  /** Reads a packet back; the address byte tells the two kinds apart. */
  function DecodePacket(packet: seq<Byte>): (command: Option<Command>)
    ensures command.Some? ==> EncodeCommand(command.value) == packet
  {
    if |packet| != PacketSize then None
    else if packet[0] == LedColorAddress then
      Some(SetLedColor(Color(packet[1], packet[2], packet[3])))
    else if packet[0] == ModeSpeedAddress && packet[3] == ModeSpeedTrailer then
      var mode, speed := ModeOfFusionCode(packet[1]), SpeedOfFusionCode(packet[2]);
      if mode.Some? && speed.Some? then Some(SetModeSpeed(mode.value, speed.value)) else None
    else None
  }

  /** Every packet the driver writes reads back as the command it came from. */
  lemma PacketRoundTrip(command: Command)
    ensures DecodePacket(EncodeCommand(command)) == Some(command)
  {
    match command
    case SetLedColor(color) =>
    case SetModeSpeed(mode, speed) => FusionCodesRoundTrip(mode, speed);
  }

  // ---------------------------------------------------------------------------
  // The device

  /**
   * `Rtx2080`: the cached colour, mode and speed, and the packets written to
   * the card over I2C, oldest first. The name is the GPU's full name as
   * nvapi reports it, given to the constructor.
   */
  class Rtx2080 {
    const name: string
    var color: Color
    var mode: RgbMode
    var speed: RgbSpeed
    var written: seq<seq<Byte>>

    /** Black, static, slow; nothing written yet. */
    constructor (name: string)
      ensures this.name == name && color == Black && mode == Static && speed == Slow
      ensures written == []
    {
      this.name := name;
      color := NewColor(0, 0, 0);
      mode := Static;
      speed := Slow;
      written := [];
    }

    /** One I2C write of a 4-byte packet. */
    method Write(data: seq<Byte>)
      requires |data| == PacketSize
      modifies this`written
      ensures written == old(written) + [data]
    {
      written := written + [data];
    }

    method SetColor(c: Color)
      modifies this`color
      ensures color == c
    {
      color := c;
    }

    method SetMode(m: RgbMode)
      modifies this`mode
      ensures mode == m
    {
      mode := m;
    }

    method SetSpeed(s: RgbSpeed)
      modifies this`speed
      ensures speed == s
    {
      speed := s;
    }

    /** The card has no brightness setting: nothing changes. */
    method SetBrightness(b: RgbBrightness)
      ensures unchanged(this)
    {
    }

    function GetName(): (n: string)
      ensures n == name
    {
      name
    }

    /** Writes the colour packet, then the mode-and-speed packet, on every call. */
    method Display()
      modifies this`written
      ensures written == old(written) + [EncodeCommand(SetLedColor(color)), EncodeCommand(SetModeSpeed(mode, speed))]
    {
      Write(ColorPacket(color));
      Write(ModeSpeedPacket(mode, speed));
    }
  }

  /**
   * A new card set to red and fast, displayed twice: both displays write the
   * same two packets, though nothing changed in between.
   */
  method DisplayTwice() returns (written: seq<seq<Byte>>)
    ensures |written| == 4 && written[..2] == written[2..]
    ensures written[0] == [LedColorAddress, 255, 0, 0]
    ensures written[1] == [ModeSpeedAddress, 0x01, 0x09, ModeSpeedTrailer]
  {
    var card := new Rtx2080("NVIDIA GeForce RTX 2080");
    card.SetColor(NewColor(255, 0, 0));
    card.SetSpeed(Fast);
    card.Display();
    card.Display();
    written := card.written;
  }
}
