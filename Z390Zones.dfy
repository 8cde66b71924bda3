/**
 * The sixteen zone facades of src/z390.rs that share one report buffer, and
 * the function that creates them.
 */
module Z390Zones {
  import opened Options
  import opened Colors
  import opened MsiCodes
  import opened Z390Report

  // ---------------------------------------------------------------------------
  // The zone facades

  /**
   * The record a facade's cached settings stand for: its mode's effect code,
   * its colour in both colour slots, and its brightness and speed packed
   * together; the colour flags and padding stay 0.
   */
  function CachedRecord(color: Color, mode: RgbMode, speed: RgbSpeed, brightness: RgbBrightness): (d: ZoneData)
    ensures ModeOfEffect(d.effect) == Some(mode)
    ensures d.color == color && d.color2 == color
    ensures BrightnessOfCode(d.speedAndBrightnessFlags / 4) == Some(brightness)
    ensures SpeedOfCode(d.speedAndBrightnessFlags % 4) == Some(speed)
    ensures d.colorFlags == 0 && d.padding == 0
  {
    CodesRoundTrip(mode, speed, brightness);
    ZoneData(MsiModeCode(mode), color, PackedFlags(brightness, speed), color, 0, 0)
  }

  /** A new facade's settings stand for exactly the record every zone starts with. */
  lemma DefaultsMatchNewZoneData()
    ensures CachedRecord(Black, Static, Slow, Level100) == NewZoneData()
  {
    assert PackedFlags(Level100, Slow) == 40;
  }

  /**
   * `Z390RgbDevice`: one zone of the controller. It caches the settings last
   * given to it, remembers whether anything was set since the last display,
   * and shares the report buffer with the other fifteen zones.
   */
  class Z390RgbDevice {
    const name: string
    const zoneIndex: ZoneIndex
    const z390: Z390
    var dataWriten: bool
    var color: Color
    var mode: RgbMode
    var speed: RgbSpeed
    var brightness: RgbBrightness

    ghost predicate Valid()
      reads z390
    {
      z390.Valid()
    }

    /** The shared record of this facade's zone holds what its cached settings stand for. */
    ghost predicate Synced()
      reads this, z390
    {
      z390.Valid() && z390.zones[Ordinal(zoneIndex)] == CachedRecord(color, mode, speed, brightness)
    }

    /** Clean, with the settings every facade starts with. */
    ghost predicate AtDefaults()
      reads this
    {
      !dataWriten && color == Black && mode == Static && speed == Slow && brightness == Level100
    }

    /** A clean facade with black, static, slow, full-brightness settings. */
    constructor (name: string, zoneIndex: ZoneIndex, dataPacket: Z390)
      ensures this.name == name && this.zoneIndex == zoneIndex && z390 == dataPacket
      ensures !dataWriten && color == Black && mode == Static && speed == Slow && brightness == Level100
    {
      this.name := name;
      this.zoneIndex := zoneIndex;
      z390 := dataPacket;
      dataWriten := false;
      color := NewColor(0, 0, 0);
      mode := Static;
      speed := Slow;
      brightness := Level100;
    }

    /** Marks the facade dirty and puts the colour into both colour slots of its zone only. */
    method SetColor(c: Color)
      requires Valid()
      modifies this`dataWriten, this`color, z390`zones
      ensures Valid() && dataWriten && color == c
      ensures z390.zones == old(z390.zones)[Ordinal(zoneIndex) := old(z390.BorrowZoneDataIndexed(zoneIndex)).(color := c, color2 := c)]
      ensures old(Synced()) ==> Synced()
    {
      dataWriten := true;
      color := c;
      var zoneData := z390.BorrowZoneDataIndexed(zoneIndex);
      z390.WriteZoneDataIndexed(zoneIndex, zoneData.(color := color, color2 := color));
    }

    /** Marks the facade dirty and writes the mode's effect code into its zone only. */
    method SetMode(m: RgbMode)
      requires Valid()
      modifies this`dataWriten, this`mode, z390`zones
      ensures Valid() && dataWriten && mode == m
      ensures z390.zones == old(z390.zones)[Ordinal(zoneIndex) := old(z390.BorrowZoneDataIndexed(zoneIndex)).(effect := MsiModeCode(m))]
      ensures old(Synced()) ==> Synced()
    {
      dataWriten := true;
      mode := m;
      var zoneData := z390.BorrowZoneDataIndexed(zoneIndex);
      z390.WriteZoneDataIndexed(zoneIndex, zoneData.(effect := MsiModeCode(mode)));
    }

    /** Marks the facade dirty and repacks its zone's flags from the new speed and the cached brightness. */
    method SetSpeed(s: RgbSpeed)
      requires Valid()
      modifies this`dataWriten, this`speed, z390`zones
      ensures Valid() && dataWriten && speed == s
      ensures z390.zones == old(z390.zones)[Ordinal(zoneIndex) := old(z390.BorrowZoneDataIndexed(zoneIndex)).(speedAndBrightnessFlags := PackedFlags(brightness, s))]
      ensures old(Synced()) ==> Synced()
    {
      dataWriten := true;
      speed := s;
      var zoneData := z390.BorrowZoneDataIndexed(zoneIndex);
      z390.WriteZoneDataIndexed(zoneIndex, zoneData.(speedAndBrightnessFlags := PackedFlags(brightness, speed)));
    }

    /** Marks the facade dirty and repacks its zone's flags from the new brightness and the cached speed. */
    method SetBrightness(b: RgbBrightness)
      requires Valid()
      modifies this`dataWriten, this`brightness, z390`zones
      ensures Valid() && dataWriten && brightness == b
      ensures z390.zones == old(z390.zones)[Ordinal(zoneIndex) := old(z390.BorrowZoneDataIndexed(zoneIndex)).(speedAndBrightnessFlags := PackedFlags(b, speed))]
      ensures old(Synced()) ==> Synced()
    {
      dataWriten := true;
      brightness := b;
      var zoneData := z390.BorrowZoneDataIndexed(zoneIndex);
      z390.WriteZoneDataIndexed(zoneIndex, zoneData.(speedAndBrightnessFlags := PackedFlags(brightness, speed)));
    }

    function GetName(): (n: string)
      ensures n == name
    {
      name
    }

    /** Sends the whole shared report if anything was set since the last display; always ends clean. */
    method Display()
      requires Valid()
      modifies this`dataWriten, z390`sent
      ensures Valid() && !dataWriten
      ensures z390.sent == old(z390.sent) + (if old(dataWriten) then [ReportBytes(z390.reportId, z390.zones, z390.saveData)] else [])
    {
      if dataWriten {
        z390.WriteToDevice();
      }
      dataWriten := false;
    }
  }

  /** The facade names, in table order. */
  const ZoneNames: seq<string> := [
    "JRgb1", "JRainbow1", "JCorsair1", "JCorsairOuterll120",
    "OnBoardLed", "OnBoardLed1", "OnBoardLed2", "OnBoardLed3", "OnBoardLed4", "OnBoardLed5",
    "OnBoardLed6", "OnBoardLed7", "OnBoardLed8", "OnBoardLed9", "OnBoardLed10", "JRgb2"]

  /**
   * One facade per zone, in table order, all sharing one new report buffer
   * with report id 0x52 and save flag 0: every facade is clean, its zone
   * holds what its settings stand for, and nothing has been sent.
   */
  method GetZ390RgbDevices() returns (devices: seq<Z390RgbDevice>)
    ensures |devices| == ZoneCount
    ensures forall k :: 0 <= k < ZoneCount ==> devices[k].name == ZoneNames[k] && devices[k].zoneIndex == ZoneTable[k]
    ensures forall i, j :: 0 <= i < ZoneCount && 0 <= j < ZoneCount && i != j ==> devices[i].zoneIndex != devices[j].zoneIndex
    ensures forall k :: 0 <= k < ZoneCount ==> devices[k].z390 == devices[0].z390
    ensures fresh(devices[0].z390) && devices[0].z390.sent == []
    ensures devices[0].z390.reportId == ReportId && devices[0].z390.saveData == 0
    ensures forall k :: 0 <= k < ZoneCount ==> fresh(devices[k]) && devices[k].AtDefaults()
    ensures forall k :: 0 <= k < ZoneCount ==> devices[k].Valid() && devices[k].Synced()
  {
    var dataPacket := new Z390();
    DefaultsMatchNewZoneData();
    devices := [];
    // get_z390_rgb_devices pushes the sixteen facades one after another in
    // table order; the loop makes the same pushes over ZoneTable.
    for k := 0 to ZoneCount
      invariant |devices| == k
      invariant dataPacket.Valid() && dataPacket.sent == []
      invariant dataPacket.reportId == ReportId && dataPacket.saveData == 0
      invariant forall i :: 0 <= i < ZoneCount ==> dataPacket.zones[i] == NewZoneData()
      invariant forall i :: 0 <= i < k ==> devices[i].name == ZoneNames[i] && devices[i].zoneIndex == ZoneTable[i]
      invariant forall i :: 0 <= i < k ==> devices[i].z390 == dataPacket && fresh(devices[i]) && devices[i].AtDefaults()
    {
      var device := new Z390RgbDevice(ZoneNames[k], ZoneTable[k], dataPacket);
      devices := devices + [device];
    }
    TableDistinct();
  }

  /**
   * Red on the first zone and green on the second, then the first, the second
   * and again the first zone displayed: the first display already carries
   * both colours, the second sends the same report because its zone is still
   * dirty, the third sends nothing.
   */
  method TwoZoneTick() returns (sent: seq<seq<Byte>>)
    ensures |sent| == 2 && sent[0] == sent[1] && |sent[0]| == ReportSize
    ensures sent[0][1..5] == [MsiModeStatic, 255, 0, 0]
    ensures sent[0][11..15] == [MsiModeStatic, 0, 255, 0]
  {
    var z390, first, second := PaintTwoZones();
    ghost var zones := z390.zones;
    ghost var report := ReportBytes(z390.reportId, zones, z390.saveData);
    first.Display();
    second.Display();
    first.Display();
    assert z390.sent == [report, report];
    sent := z390.sent;
    ColorInReport(z390.reportId, zones, z390.saveData, JRgb1);
    ColorInReport(z390.reportId, zones, z390.saveData, JRainbow1);
  }

  /** The first two facades of a new buffer, set to red and to green. */
  method PaintTwoZones() returns (z390: Z390, first: Z390RgbDevice, second: Z390RgbDevice)
    ensures fresh(z390) && fresh(first) && fresh(second) && first != second
    ensures first.z390 == z390 && second.z390 == z390 && z390.Valid() && z390.sent == []
    ensures first.dataWriten && second.dataWriten
    ensures z390.zones[0] == CachedRecord(NewColor(255, 0, 0), Static, Slow, Level100)
    ensures z390.zones[1] == CachedRecord(NewColor(0, 255, 0), Static, Slow, Level100)
  {
    z390 := new Z390();
    first := new Z390RgbDevice(ZoneNames[0], JRgb1, z390);
    second := new Z390RgbDevice(ZoneNames[1], JRainbow1, z390);
    DefaultsMatchNewZoneData();
    first.SetColor(NewColor(255, 0, 0));
    second.SetColor(NewColor(0, 255, 0));
  }

  /**
   * Brightness 50% and then fast speed on one zone: the displayed report
   * carries the packed byte 0x16 (code 5 shifted left by two, or code 2).
   */
  method BrightnessThenSpeed() returns (flags: Byte)
    ensures flags == 0x16
  {
    var z390, zone := TuneOneZone();
    zone.Display();
    RecordInReport(z390.reportId, z390.zones, z390.saveData, Ordinal(OnBoardLed));
    flags := z390.sent[0][Offset(OnBoardLed) + 4];
  }

  /** A facade of a new buffer, given brightness 50% and then fast speed. */
  method TuneOneZone() returns (z390: Z390, zone: Z390RgbDevice)
    ensures fresh(z390) && fresh(zone) && zone.z390 == z390 && zone.zoneIndex == OnBoardLed
    ensures z390.Valid() && z390.sent == [] && zone.dataWriten
    ensures z390.zones[Ordinal(OnBoardLed)].speedAndBrightnessFlags == 0x16
  {
    z390 := new Z390();
    zone := new Z390RgbDevice(ZoneNames[4], OnBoardLed, z390);
    zone.SetBrightness(Level50);
    zone.SetSpeed(Fast);
    PackedFlagsExample();
  }
}
