/**
 * The `RgbDevice` interface of the three drivers: a boxed device is one of
 * the sixteen Z390 zone facades, the RTX 2080 card or the SK621 keyboard,
 * and `set_color` goes to that implementation.
 */
module RgbDevices {
  import opened Colors
  import opened Z390Report
  import opened Z390Zones
  import opened Rtx2080Driver
  import opened Sk621Driver

  /** A `Box<dyn RgbDevice>`: one of the implementations. */
  datatype RgbDevice = Z390Zone(zone: Z390RgbDevice) | Gpu(gpu: Rtx2080) | Keyboard(keyboard: Sk621)

  /** The device object itself. */
  function Target(d: RgbDevice): (targets: set<object>)
    ensures |targets| == 1
  {
    match d
    case Z390Zone(zone) => {zone}
    case Gpu(gpu) => {gpu}
    case Keyboard(keyboard) => {keyboard}
  }

  /** Everything a device's setters may change: the device, and for a zone the shared buffer. */
  function Footprint(d: RgbDevice): (objects: set<object>)
    ensures Target(d) <= objects
  {
    match d
    case Z390Zone(zone) => {zone, zone.z390}
    case Gpu(gpu) => {gpu}
    case Keyboard(keyboard) => {keyboard}
  }

  ghost predicate DeviceValid(d: RgbDevice)
    reads Footprint(d)
  {
    d.Z390Zone? ==> d.zone.Valid()
  }

  /** The colour the device holds for its next display. */
  function CachedColor(d: RgbDevice): Color
    reads Target(d)
  {
    match d
    case Z390Zone(zone) => zone.color
    case Gpu(gpu) => gpu.color
    case Keyboard(keyboard) => keyboard.color
  }

  /** What a device's `set_color` leaves alone: every setting but the colour, and a buffer's header and trailer. */
  datatype Settings =
    | ZoneSettings(mode: RgbMode, speed: RgbSpeed, brightness: RgbBrightness, reportId: Byte, saveData: Byte)
    | GpuSettings(mode: RgbMode, speed: RgbSpeed)
    | KeyboardSettings

  ghost function SettingsOf(d: RgbDevice): Settings
    reads Footprint(d)
  {
    match d
    case Z390Zone(zone) => ZoneSettings(zone.mode, zone.speed, zone.brightness, zone.z390.reportId, zone.z390.saveData)
    case Gpu(gpu) => GpuSettings(gpu.mode, gpu.speed)
    case Keyboard(_) => KeyboardSettings
  }

  /** The zone record of a Z390 facade in its shared buffer. */
  ghost function ZoneRecord(d: RgbDevice): ZoneData
    requires d.Z390Zone? && DeviceValid(d)
    reads Footprint(d)
  {
    d.zone.z390.zones[Ordinal(d.zone.zoneIndex)]
  }

  /**
   * `set_color` through the interface: the device now holds the colour; a
   * zone facade is dirty and has the colour in both colour slots of its
   * record and nowhere else; no other setting, and neither the header nor
   * the trailer of a zone's buffer, changes, and nothing is sent.
   */
  method SetColor(d: RgbDevice, c: Color)
    requires DeviceValid(d)
    modifies Footprint(d)
    ensures DeviceValid(d) && CachedColor(d) == c && SettingsOf(d) == old(SettingsOf(d))
    ensures d.Z390Zone? ==> d.zone.dataWriten
    ensures d.Z390Zone? ==> d.zone.z390.zones == old(d.zone.z390.zones)[Ordinal(d.zone.zoneIndex) := old(ZoneRecord(d)).(color := c, color2 := c)]
    ensures d.Z390Zone? ==> d.zone.z390.sent == old(d.zone.z390.sent)
    ensures d.Gpu? ==> d.gpu.written == old(d.gpu.written)
    ensures d.Keyboard? ==> d.keyboard.fullColorCommands == old(d.keyboard.fullColorCommands)
  {
    match d
    case Z390Zone(zone) => zone.SetColor(c);
    case Gpu(gpu) => gpu.SetColor(c);
    case Keyboard(keyboard) => keyboard.SetColor(c);
  }
}
