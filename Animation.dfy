/**
 * The colour wave of src/animation.rs: a triangle wave of period 767 sampled
 * at three phases gives the red, green and blue channels, and
 * `color_spectrum` puts the colour for a point in time on every device.
 */
module Animation {
  import opened Options
  import opened Colors
  import opened Z390Report
  import opened Z390Zones
  import opened RgbDevices

  const MaxMapGraph: nat := 767
  const ROffset: U32 := 0
  const GOffset: U32 := 255
  const BOffset: U32 := 511

  const U32Limit: nat := 0x1_0000_0000
  type U32 = x: int | 0 <= x < 0x1_0000_0000
  type U128 = x: int | 0 <= x < 0x1_0000_0000_0000_0000_0000_0000_0000_0000

  function Min(a: int, b: int): int { if a <= b then a else b }
  function Max(a: int, b: int): int { if a <= b then b else a }

  /**
   * The graph at a point of one period: rising from 0 to 255 over 0 .. 255,
   * falling from 255 to 0 over 256 .. 511, flat at 0 over 512 .. 766.
   */
  function Graph(p: nat): (y: Byte)
    requires p < MaxMapGraph
    ensures y == Min(p, Max(0, 511 - p))
  {
    if p <= 255 then p
    else if 256 <= p <= 511 then 255 - (p - 256)
    else 0
  }

  /**
   * `map_graph_color` as written: `position + offset` is a u32 addition,
   * which panics in a debug build once the sum reaches 2^32 (None here);
   * below that it is the wave.
   */
  function MapGraphColorAsWritten(position: U32, offset: U32): (y: Option<Byte>)
    ensures y.None? <==> position + offset >= U32Limit
    ensures y.Some? ==> y.value == MapGraphColor(position, offset)
  {
    if position + offset >= U32Limit then None
    else Some(Graph((position + offset) % MaxMapGraph))
  }

  /** The sum that overflows: the largest position with the red-green phase offset. */
  lemma MapGraphColorOverflows()
    ensures MapGraphColorAsWritten(0xFFFF_FFFF, GOffset) == None
  {
  }

  /**
   * `map_graph_color` with the sum computed without overflow: the wave at
   * `(position + offset) mod 767`, rising, falling, then flat.
   */
  function MapGraphColor(position: U32, offset: U32): (y: Byte)
    ensures var p := (position + offset) % MaxMapGraph;
      y == Min(p, Max(0, 511 - p))
  {
    Graph((position + offset) % MaxMapGraph)
  }

  /** The wave repeats every 767 positions. */
  lemma MapGraphColorPeriodic(position: U32, offset: U32)
    requires position + MaxMapGraph < U32Limit
    ensures MapGraphColor(position + MaxMapGraph, offset) == MapGraphColor(position, offset)
  {
    assert (position + MaxMapGraph + offset) % MaxMapGraph == (position + offset) % MaxMapGraph;
  }

  /** Neighbouring positions give values at most 1 apart: the wave has no jumps. */
  lemma MapGraphColorContinuous(position: U32, offset: U32)
    requires position + 1 < U32Limit
    ensures -1 <= MapGraphColor(position + 1, offset) - MapGraphColor(position, offset) <= 1
  {
    var p := (position + offset) % MaxMapGraph;
    var q := (position + 1 + offset) % MaxMapGraph;
    assert q == if p == MaxMapGraph - 1 then 0 else p + 1;
  }

  /** The wave peaks at 255 exactly at 255 and 256, and is 0 exactly at 0 and from 511 on. */
  lemma MapGraphColorExtremes(position: U32, offset: U32)
    ensures var p := (position + offset) % MaxMapGraph;
      (MapGraphColor(position, offset) == 255 <==> p == 255 || p == 256) &&
      (MapGraphColor(position, offset) == 0 <==> p == 0 || 511 <= p)
  {
  }

  /** Shifting by a phase commutes with reducing modulo the period. */
  lemma PhaseShift(p: nat, k: nat)
    ensures (p + k) % MaxMapGraph == (p % MaxMapGraph + k) % MaxMapGraph
  {
    var q := p / MaxMapGraph;
    assert p + k == MaxMapGraph * q + (p % MaxMapGraph + k);
  }

  /**
   * Within one period the three phases never all light up: one of them is
   * 0, and their sum is 256 on the rising edge of red and 255 elsewhere.
   */
  lemma ThreePhases(q: nat)
    requires q < MaxMapGraph
    ensures var r, g, b := Graph(q), Graph((q + GOffset) % MaxMapGraph), Graph((q + BOffset) % MaxMapGraph);
      (r == 0 || g == 0 || b == 0) && r + g + b == if 1 <= q <= 255 then 256 else 255
  {
    if q < 256 {
      assert (q + GOffset) % MaxMapGraph == q + GOffset;
      assert (q + BOffset) % MaxMapGraph == q + BOffset;
    } else if q < 512 {
      assert (q + GOffset) % MaxMapGraph == q + GOffset;
      assert (q + BOffset) % MaxMapGraph == q + BOffset - MaxMapGraph;
    } else {
      assert (q + GOffset) % MaxMapGraph == q + GOffset - MaxMapGraph;
      assert (q + BOffset) % MaxMapGraph == q + BOffset - MaxMapGraph;
    }
  }

  /**
   * The colour for a position: the position truncated to u32 (`as u32`),
   * with red, green and blue the wave at phase offsets 0, 255 and 511. At
   * every position one channel is off, and the three add up to 256 while
   * red rises from 1 to 255 and to 255 everywhere else in the period.
   */
  function GetColorFromGraph(position: U128): (c: Color)
    ensures c.r == 0 || c.g == 0 || c.b == 0
    ensures c.r + c.g + c.b == if 1 <= position % U32Limit % MaxMapGraph <= 255 then 256 else 255
  {
    var p := position % U32Limit;
    var q := p % MaxMapGraph;
    PhaseShift(p, GOffset);
    PhaseShift(p, BOffset);
    ThreePhases(q);
    Color(MapGraphColor(p, ROffset), MapGraphColor(p, GOffset), MapGraphColor(p, BOffset))
  }

  /**
   * Consecutive positions give neighbouring colours, each channel moving by
   * at most 1, except where the truncation to u32 wraps around.
   */
  lemma ColorContinuous(position: U128)
    requires position % U32Limit + 1 < U32Limit
    requires position + 1 < 0x1_0000_0000_0000_0000_0000_0000_0000_0000
    ensures var c, d := GetColorFromGraph(position), GetColorFromGraph(position + 1);
      -1 <= d.r - c.r <= 1 && -1 <= d.g - c.g <= 1 && -1 <= d.b - c.b <= 1
  {
    var p := position % U32Limit;
    assert (position + 1) % U32Limit == p + 1;
    MapGraphColorContinuous(p, ROffset);
    MapGraphColorContinuous(p, GOffset);
    MapGraphColorContinuous(p, BOffset);
  }

  /**
   * `color_spectrum`: scales the time to tenths of a second, computes that
   * colour once and sets it on every device in order, without displaying:
   * every device holds the colour, every zone facade is dirty with the
   * colour in both slots of its record, no other setting, record field or
   * record of a zone outside the list changes, and no device has sent
   * anything. The frame is the devices' footprints and nothing else
   * (`FootprintsWithin`).
   */
  method ColorSpectrum(devices: seq<RgbDevice>, millis: U128)
    requires forall i :: 0 <= i < |devices| ==> DeviceValid(devices[i])
    modifies Footprints(devices)
    ensures forall i :: 0 <= i < |devices| ==> DeviceValid(devices[i])
    ensures forall i :: 0 <= i < |devices| ==> Painted(devices[i], GetColorFromGraph(millis / 100))
    ensures forall i :: 0 <= i < |devices| ==> SettingsOf(devices[i]) == old(SettingsOf(devices[i]))
    ensures forall i :: 0 <= i < |devices| ==> Traffic(devices[i]) == old(Traffic(devices[i]))
    ensures forall i, j :: 0 <= i < |devices| && devices[i].Z390Zone? && 0 <= j < ZoneCount ==>
      var b := devices[i].zone.z390;
      |old(b.zones)| == |b.zones| == ZoneCount &&
      b.zones[j] == if Covers(devices, b, j) then Recolor(old(b.zones[j]), GetColorFromGraph(millis / 100)) else old(b.zones[j])
  {
    var position := millis / 100;
    var color := GetColorFromGraph(position);
    for k := 0 to |devices|
      invariant forall i :: 0 <= i < |devices| ==> DeviceValid(devices[i])
      invariant forall i :: 0 <= i < k ==> Painted(devices[i], color)
      invariant forall i :: 0 <= i < |devices| ==> SettingsOf(devices[i]) == old(SettingsOf(devices[i]))
      invariant forall i :: 0 <= i < |devices| ==> Traffic(devices[i]) == old(Traffic(devices[i]))
      invariant forall i :: 0 <= i < |devices| && devices[i].Z390Zone? ==>
        var b := devices[i].zone.z390;
        |old(b.zones)| == ZoneCount && b.zones == Repaint(devices[..k], b, old(b.zones), color)
    {
      SetColorOnOne(devices, k, color);
      assert devices[..k + 1][..k] == devices[..k];
    }
    assert devices[..|devices|] == devices;
    forall i, j | 0 <= i < |devices| && devices[i].Z390Zone? && 0 <= j < ZoneCount
      ensures var b := devices[i].zone.z390;
        |old(b.zones)| == |b.zones| == ZoneCount &&
        b.zones[j] == if Covers(devices, b, j) then Recolor(old(b.zones[j]), color) else old(b.zones[j])
    {
      var b := devices[i].zone.z390;
      RepaintCovers(devices, b, old(b.zones), color, j);
    }
  }

  /**
   * A caller that owns its devices: a new buffer with one zone facade over
   * it, given one `color_spectrum` tick. The facade holds the colour and the
   * buffer still carries the report id and has sent nothing.
   */
  method SpectrumOnNewZone(millis: U128) returns (zoneColor: Color, reportId: Byte, sent: seq<seq<Byte>>)
    ensures zoneColor == GetColorFromGraph(millis / 100)
    ensures reportId == ReportId && sent == []
  {
    var z390 := new Z390();
    var zone := new Z390RgbDevice(ZoneNames[0], JRgb1, z390);
    var devices := [Z390Zone(zone)];
    FootprintsWithin(devices);
    ColorSpectrum(devices, millis);
    zoneColor, reportId, sent := zone.color, z390.reportId, z390.sent;
  }

  /**
   * One step of `color_spectrum`: `set_color` on the k-th device, seen from
   * the whole list. Every device stays valid and silent and keeps its other
   * settings; the k-th one is painted, and those painted before still are;
   * each buffer changes only in the record the k-th device recolours.
   */
  method SetColorOnOne(devices: seq<RgbDevice>, k: nat, c: Color)
    requires k < |devices|
    requires forall i :: 0 <= i < |devices| ==> DeviceValid(devices[i])
    modifies Footprint(devices[k])
    ensures forall i :: 0 <= i < |devices| ==> DeviceValid(devices[i]) && Traffic(devices[i]) == old(Traffic(devices[i]))
    ensures forall i :: 0 <= i < |devices| ==> SettingsOf(devices[i]) == old(SettingsOf(devices[i]))
    ensures forall i :: 0 <= i < |devices| && (old(Painted(devices[i], c)) || i == k) ==> Painted(devices[i], c)
    ensures forall i :: 0 <= i < |devices| && devices[i].Z390Zone? ==>
      var b := devices[i].zone.z390;
      |old(b.zones)| == ZoneCount && b.zones == RepaintOne(devices[k], b, old(b.zones), c)
  {
    var e := devices[k];
    SetColor(e, c);
    forall i | 0 <= i < |devices|
      ensures DeviceValid(devices[i]) && Traffic(devices[i]) == old(Traffic(devices[i]))
      ensures SettingsOf(devices[i]) == old(SettingsOf(devices[i]))
      ensures old(Painted(devices[i], c)) || i == k ==> Painted(devices[i], c)
      ensures devices[i].Z390Zone? ==>
        var b := devices[i].zone.z390;
        |old(b.zones)| == ZoneCount && b.zones == RepaintOne(e, b, old(b.zones), c)
    {
      match devices[i]
      case Z390Zone(z) =>
        if !(e.Z390Zone? && e.zone.z390 == z.z390) {
          assert z.z390 !in Footprint(e);
        }
        if !(e.Z390Zone? && e.zone == z) {
          assert z !in Footprint(e);
        }
      case Gpu(gpu) =>
        if !(e.Gpu? && e.gpu == gpu) {
          assert gpu !in Footprint(e);
        }
      case Keyboard(keyboard) =>
        if !(e.Keyboard? && e.keyboard == keyboard) {
          assert keyboard !in Footprint(e);
        }
    }
  }

  /** A zone record with the colour in both colour slots and every other field as it was. */
  function Recolor(d: ZoneData, c: Color): (r: ZoneData)
    ensures r.color == c && r.color2 == c
    ensures r.effect == d.effect && r.speedAndBrightnessFlags == d.speedAndBrightnessFlags
    ensures r.colorFlags == d.colorFlags && r.padding == d.padding
  {
    d.(color := c, color2 := c)
  }

  /** Some zone facade of the list writes record j of buffer b. */
  predicate Covers(devices: seq<RgbDevice>, b: Z390, j: nat)
  {
    exists m :: 0 <= m < |devices| && devices[m].Z390Zone? && devices[m].zone.z390 == b && Ordinal(devices[m].zone.zoneIndex) == j
  }

  /** The records of buffer b after `set_color` with c on device e. */
  function RepaintOne(e: RgbDevice, b: Z390, zones: seq<ZoneData>, c: Color): (r: seq<ZoneData>)
    requires |zones| == ZoneCount
    ensures |r| == ZoneCount
  {
    if e.Z390Zone? && e.zone.z390 == b then
      var k := Ordinal(e.zone.zoneIndex);
      zones[k := Recolor(zones[k], c)]
    else zones
  }

  /** The records of buffer b after `set_color` with c on every device of the list, in order. */
  function Repaint(devices: seq<RgbDevice>, b: Z390, zones: seq<ZoneData>, c: Color): (r: seq<ZoneData>)
    requires |zones| == ZoneCount
    ensures |r| == ZoneCount
  {
    if devices == [] then zones
    else RepaintOne(devices[|devices| - 1], b, Repaint(devices[..|devices| - 1], b, zones, c), c)
  }

  /**
   * Painting a list recolours exactly the records its zone facades cover,
   * whatever the order and however often a zone occurs, and leaves every
   * other record of the buffer as it was.
   */
  lemma {:induction false} RepaintCovers(devices: seq<RgbDevice>, b: Z390, zones: seq<ZoneData>, c: Color, j: nat)
    requires |zones| == ZoneCount && j < ZoneCount
    ensures Repaint(devices, b, zones, c)[j] == if Covers(devices, b, j) then Recolor(zones[j], c) else zones[j]
    decreases |devices|
  {
    if devices != [] {
      var n := |devices| - 1;
      var front := devices[..n];
      RepaintCovers(front, b, zones, c, j);
      if Covers(front, b, j) {
        var m :| 0 <= m < n && front[m].Z390Zone? && front[m].zone.z390 == b && Ordinal(front[m].zone.zoneIndex) == j;
        assert devices[m] == front[m];
      }
      var e := devices[n];
      if e.Z390Zone? && e.zone.z390 == b && Ordinal(e.zone.zoneIndex) == j {
        assert Covers(devices, b, j);
      } else if Covers(devices, b, j) {
        var m :| 0 <= m < |devices| && devices[m].Z390Zone? && devices[m].zone.z390 == b && Ordinal(devices[m].zone.zoneIndex) == j;
        assert m < n && front[m] == devices[m];
      }
    }
  }

  /**
   * The device holds the colour; a zone facade is also dirty and has the
   * colour in both colour slots of its record.
   */
  ghost predicate Painted(d: RgbDevice, c: Color)
    reads Footprint(d)
  {
    CachedColor(d) == c &&
    (d.Z390Zone? ==> DeviceValid(d) && d.zone.dataWriten && ZoneRecord(d).color == c && ZoneRecord(d).color2 == c)
  }

  /** What a device has transmitted so far, oldest first. */
  datatype Sent = ReportsSent(reports: seq<seq<Byte>>) | PacketsSent(packets: seq<seq<Byte>>) | ColorsSent(colors: seq<Color>)

  ghost function Traffic(d: RgbDevice): Sent
    reads Footprint(d)
  {
    match d
    case Z390Zone(zone) => ReportsSent(zone.z390.sent)
    case Gpu(gpu) => PacketsSent(gpu.written)
    case Keyboard(keyboard) => ColorsSent(keyboard.fullColorCommands)
  }

  /** Everything the devices' setters may change. */
  function Footprints(devices: seq<RgbDevice>): (objects: set<object>)
    ensures forall i :: 0 <= i < |devices| ==> Footprint(devices[i]) <= objects
  {
    if devices == [] then {} else Footprints(devices[..|devices| - 1]) + Footprint(devices[|devices| - 1])
  }

  /** `Footprints` holds nothing but the devices' own footprints. */
  lemma {:induction false} FootprintsWithin(devices: seq<RgbDevice>)
    ensures forall o :: o in Footprints(devices) ==> exists i :: 0 <= i < |devices| && o in Footprint(devices[i])
    decreases |devices|
  {
    if devices != [] {
      var n := |devices| - 1;
      var front := devices[..n];
      FootprintsWithin(front);
      assert Footprints(devices) == Footprints(front) + Footprint(devices[n]);
      forall o | o in Footprints(devices)
        ensures exists i :: 0 <= i < |devices| && o in Footprint(devices[i])
      {
        if o in Footprints(front) {
          var i :| 0 <= i < |front| && o in Footprint(front[i]);
          assert devices[i] == front[i];
        } else {
          assert o in Footprint(devices[n]);
        }
      }
    }
  }
}
