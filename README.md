# rustic_light in Dafny

rustic_light drives the RGB lighting of three pieces of PC hardware through
one device interface (`RgbDevice`: set colour, mode, speed and brightness,
get the name, display). This project models its core and proves properties
of the model:

- **MSI MPG Z390 Gaming Pro Carbon motherboard** (`src/z390.rs`). A 162-byte
  HID feature report holds a report id (`0x52`), sixteen 10-byte zone
  records at fixed offsets 1, 11, …, 151, and a save flag at byte 161. Each
  zone record holds the effect, the colour, the packed speed-and-brightness
  flags, a second colour, the colour flags and padding. Sixteen zone facades
  share one report buffer (`Rc<RefCell<Z390>>`). Each facade caches its own
  settings, writes the changed field into its zone record, and sends the
  whole report on `display` if any of its setters was called since the last
  display.
  Modules `MsiCodes`, `Z390Report` and `Z390Zones`.
- **Gigabyte RTX 2080 graphics card** (`src/rtx2080.rs`). It caches its
  colour, mode and speed. On every display it writes two 4-byte I2C packets:
  the colour, then the mode and speed. Module `Rtx2080Driver`.
- **Cooler Master SK621 keyboard** (`src/sk621.rs`). It caches a colour and
  sends it as one full-colour command on every display. Module `Sk621Driver`.
- **The colour and its text form** (`src/color.rs`). Module `Colors`.
- **The animation** (`src/animation.rs`). A triangle wave of period 767 is
  sampled at three phases to give red, green and blue. `color_spectrum`
  sets that colour, taken at the current time in tenths of a second, on
  every device. Module `Animation`, over the device interface of module
  `RgbDevices`, where a `Box<dyn RgbDevice>` is the sum datatype
  `RgbDevice` of a zone facade, the card or the keyboard.

The report buffer, the facades and the two single-zone drivers are classes
whose methods update their fields. The transports (the HID feature report,
the I2C writes, the keyboard SDK) are logs of what was sent, so a method's
contract can say exactly what went out. Where the source's setters change
a zone record in place through the `&mut ZoneData` that
`borrow_zone_data_indexed` returns, the model reads the record and writes
the changed copy back with `write_zone_data_indexed`. The byte layout, the code tables
and the wave are functions. They are tied together by round-trip,
locality, injectivity and continuity lemmas.

## Model

| member | source | states |
|---|---|---|
| Colors.NewColor | src/color.rs:14-22 | the colour has exactly the three given channels |
| Colors.Display | src/color.rs:26-31 | the text is `rgb(` … `)`, 12 to 18 characters long |
| Colors.DisplayRoundTrip | src/color.rs:28-31 | parsing the text of a colour gives back that colour: the format loses nothing |
| Colors.DisplayInjective | src/color.rs:28-31 | two colours with the same text are the same colour |
| Colors.DecimalValue | src/color.rs:30 | each channel is written as the decimal digits of its value |
| Colors.DecimalLength | src/color.rs:30 | a channel takes 1, 2 or 3 digits according to its size |
| MsiCodes.MsiModeCode | src/z390.rs:104-107 | the only generic mode, static, is MSI effect 1 (`MsiMode::Static`) |
| MsiCodes.ModeOfEffect | src/z390.rs:534-576 | an effect byte reads back as a mode exactly when it is `MsiMode::Static` (1), the only mode the interface has |
| MsiCodes.MsiSpeedCode | src/z390.rs:126-131 | a speed becomes an MSI speed code of at most 2, so it fits the two low bits of the flags |
| MsiCodes.SpeedOfCode | src/z390.rs:580-585 | a speed code reads back exactly when it is 0, 1 or 2, and then as the speed that encodes it |
| MsiCodes.MsiBrightnessCode | src/z390.rs:133-145 | a brightness becomes an MSI code from 1 to 10, never `Off` (0) |
| MsiCodes.BrightnessOfCode | src/z390.rs:589-602 | a brightness code reads back exactly when it is 1 to 10, and then as the brightness that encodes it |
| MsiCodes.CodesRoundTrip | src/z390.rs:104-107 | the mode, speed and brightness translations lose nothing |
| MsiCodes.PackBits | src/z390.rs:147 | the brightness code shifted left by two reads back from the high bits, and the speed code masked to two bits from the low bits |
| MsiCodes.PackedFlags | src/z390.rs:147 | the flags byte has the brightness code above bit 2 and the speed code in the low two bits, and both read back |
| MsiCodes.PackedFlagsInjective | src/z390.rs:147 | different speed/brightness pairs give different flags bytes |
| MsiCodes.PackedFlagsExample | src/z390.rs:147 | 50% brightness at the fast speed packs to `0x16` |
| Z390Report.NewZoneData | src/z390.rs:305-321 | a new record is static (1), black in both colours, flags 40 (full brightness, low speed), zero colour flags and padding |
| Z390Report.EncodeZone | src/z390.rs:509-518 | a record is written as exactly ten bytes, which `DecodeZone` reads back |
| Z390Report.DecodeZone | src/z390.rs:507-519 | ten bytes, and only ten, decode to a record that encodes back to those bytes |
| Z390Report.ZoneRoundTrip | src/z390.rs:507-519 | every record read back from its ten bytes is the record itself |
| Z390Report.Ordinal | src/z390.rs:409-424 | each of the sixteen zones selects its own record, numbered 0 to 15 in report order |
| Z390Report.Offset | src/z390.rs:350-369 | the k-th zone of the table starts at byte 1 + 10k and ends before byte 161 |
| Z390Report.OffsetsDisjoint | src/z390.rs:325-347 | two zones' records overlap exactly when they are the same zone |
| Z390Report.TableOrdinal | src/z390.rs:15-30 | the table lists each zone at its own position |
| Z390Report.TableDistinct | src/z390.rs:325-347 | the sixteen zones of the table are distinct |
| Z390Report.EncodeZonesAt | src/z390.rs:481-505 | the k-th record of the packed zones is the k-th zone's encoding |
| Z390Report.WrittenIsPrefix | src/z390.rs:484-500 | after k zones the bytes written are the report id and the first k records |
| Z390Report.ReportBytes | src/z390.rs:481-505 | the report is 162 bytes, starting with the report id and ending with the save flag |
| Z390Report.RecordInReport | src/z390.rs:481-505 | bytes 1 + 10k to 11 + 10k of the report are the k-th zone's record |
| Z390Report.ZoneInReport | src/z390.rs:481-519 | each zone's ten bytes at its offset in the report are its record |
| Z390Report.ColorInReport | src/z390.rs:507-511 | the effect and colour of a zone are the first four bytes at its offset |
| Z390Report.ReportUpdateIsLocal | src/z390.rs:429-450 | replacing one zone's record changes only that zone's ten bytes of the report |
| Z390Report.DecodeEncodeZones | src/z390.rs:481-505 | the packed records decode back to the zones |
| Z390Report.DecodeReport | src/z390.rs:481-505 | exactly the 162-byte buffers decode into a report id, sixteen zones and a save flag |
| Z390Report.ReportRoundTrip | src/z390.rs:481-505 | every report decodes back to its report id, zones and save flag |
| Z390Report.SpliceRecord | src/z390.rs:507-519 | ten single-byte writes at an offset put the record there and leave the rest unchanged |
| Z390Report.Z390.constructor | src/z390.rs:376-403 | report id `0x52`, every zone at its default record, save flag 0, nothing sent |
| Z390Report.Z390.BorrowZoneDataIndexed | src/z390.rs:405-427 | the record returned is the one whose bytes lie at the zone's offset in the report |
| Z390Report.Z390.WriteZoneDataIndexed | src/z390.rs:429-450 | that zone's record is replaced and no other |
| Z390Report.Z390.WriteZoneDataAll | src/z390.rs:453-471 | every zone's record is the given one |
| Z390Report.Z390.WriteToDevice | src/z390.rs:474-478 | exactly the report's 162 bytes are appended to what was sent |
| Z390Report.Z390.ToBytes | src/z390.rs:481-505 | the buffer built is the report of the current fields |
| Z390Report.Z390.WriteZoneData | src/z390.rs:507-519 | the record is written at the zone's offset; the bytes before and after it are unchanged |
| Z390Zones.CachedRecord | src/z390.rs:76-189 | the record a facade's settings stand for: its mode's effect, its colour twice, its packed speed and brightness |
| Z390Zones.DefaultsMatchNewZoneData | src/z390.rs:56-71 | a new facade's settings stand for the default record of a new report |
| Z390Zones.Z390RgbDevice.constructor | src/z390.rs:56-71 | a clean facade with black, static, slow, full-brightness settings over the given zone and buffer |
| Z390Zones.Z390RgbDevice.SetColor | src/z390.rs:76-91 | marks dirty, caches the colour, puts it in both colour slots of its zone's record only, and keeps the record in step with the settings |
| Z390Zones.Z390RgbDevice.SetMode | src/z390.rs:93-112 | marks dirty, caches the mode, writes its effect code into its zone's record only |
| Z390Zones.Z390RgbDevice.SetSpeed | src/z390.rs:114-151 | marks dirty, caches the speed, packs it with the cached brightness into its zone's flags only |
| Z390Zones.Z390RgbDevice.SetBrightness | src/z390.rs:153-189 | marks dirty, caches the brightness, packs it with the cached speed into its zone's flags only |
| Z390Zones.Z390RgbDevice.GetName | src/z390.rs:191-194 | the facade's name |
| Z390Zones.Z390RgbDevice.Display | src/z390.rs:196-211 | sends the whole shared report exactly when the facade is dirty, then is clean |
| Z390Zones.GetZ390RgbDevices | src/z390.rs:8-35 | sixteen fresh facades in table order, named after their zones, over distinct zones and one shared new buffer, all clean and in step with it |
| Z390Zones.TwoZoneTick | src/z390.rs:76-91 | painting two zones and displaying the first, the second, then the first again sends the same full report twice, each zone's colour at its own offset; the clean zone sends nothing |
| Z390Zones.PaintTwoZones | src/z390.rs:76-91 | after painting JRgb1 red and JRainbow1 green, both are dirty and the first two records hold those colours |
| Z390Zones.BrightnessThenSpeed | src/z390.rs:114-189 | brightness then speed leaves both in the flags byte the report sends: `0x16` for 50% and fast |
| Z390Zones.TuneOneZone | src/z390.rs:114-189 | the second setter packs its own setting with the one cached by the first |
| Rtx2080Driver.FusionModeCode | src/rtx2080.rs:158-161 | the static mode is RGB Fusion mode `0x01` |
| Rtx2080Driver.FusionSpeedCode | src/rtx2080.rs:163-168 | a speed becomes one of the RGB Fusion speeds `0x00`, `0x05`, `0x09` |
| Rtx2080Driver.ModeOfFusionCode | src/rtx2080.rs:20-30 | a mode byte reads back exactly when it is the static code `0x01` |
| Rtx2080Driver.SpeedOfFusionCode | src/rtx2080.rs:32-40 | a speed byte reads back exactly when it is `0x00`, `0x05` or `0x09` |
| Rtx2080Driver.FusionCodesRoundTrip | src/rtx2080.rs:158-168 | the mode and speed translations lose nothing |
| Rtx2080Driver.ColorPacket | src/rtx2080.rs:147-155 | four bytes starting with the colour address `0x40` |
| Rtx2080Driver.ModeSpeedPacket | src/rtx2080.rs:170-177 | four bytes from the mode-and-speed address `0x88` to the trailer `0x63` |
| Rtx2080Driver.DecodePacket | src/rtx2080.rs:145-178 | a packet that reads back as a command is exactly that command's encoding |
| Rtx2080Driver.PacketRoundTrip | src/rtx2080.rs:145-178 | each packet the driver writes reads back as the command it came from |
| Rtx2080Driver.Rtx2080.constructor | src/rtx2080.rs:80-90 | black, static, slow, nothing written, named as given |
| Rtx2080Driver.Rtx2080.Write | src/rtx2080.rs:93-117 | one 4-byte packet is appended to what was written |
| Rtx2080Driver.Rtx2080.SetColor | src/rtx2080.rs:123-126 | only the cached colour changes |
| Rtx2080Driver.Rtx2080.SetMode | src/rtx2080.rs:128-131 | only the cached mode changes |
| Rtx2080Driver.Rtx2080.SetSpeed | src/rtx2080.rs:133-136 | only the cached speed changes |
| Rtx2080Driver.Rtx2080.SetBrightness | src/rtx2080.rs:138 | nothing changes |
| Rtx2080Driver.Rtx2080.GetName | src/rtx2080.rs:140-143 | the card's name |
| Rtx2080Driver.Rtx2080.Display | src/rtx2080.rs:145-178 | the colour packet, then the mode-and-speed packet, are written on every call |
| Rtx2080Driver.DisplayTwice | src/rtx2080.rs:145-178 | two displays write the same two packets twice, with red as `40 ff 00 00` and static fast as `88 01 09 63` |
| Sk621Driver.Sk621.constructor | src/sk621.rs:16-39 | named "sk621", black, nothing sent |
| Sk621Driver.Sk621.SetColor | src/sk621.rs:45-48 | only the cached colour changes |
| Sk621Driver.Sk621.SetMode | src/sk621.rs:51 | nothing changes |
| Sk621Driver.Sk621.SetSpeed | src/sk621.rs:52 | nothing changes |
| Sk621Driver.Sk621.SetBrightness | src/sk621.rs:53 | nothing changes |
| Sk621Driver.Sk621.GetName | src/sk621.rs:55-58 | the keyboard's name |
| Sk621Driver.Sk621.Display | src/sk621.rs:59-62 | one full-colour command with the cached colour is sent on every call |
| Sk621Driver.BlueTwice | src/sk621.rs:45-62 | the unsupported setters change nothing: two displays after blue send blue twice |
| RgbDevices.SetColor | src/animation.rs:71-74 | `set_color` through the interface: the device holds the colour, its other settings and its buffer's header and trailer stay, nothing is sent, and a zone writes it into both colour slots of its own record only |
| Animation.Graph | src/animation.rs:40-51 | over one period the wave rises as `p`, falls as `511 - p`, then stays at 0: `min(p, max(0, 511 - p))` |
| Animation.MapGraphColorAsWritten | src/animation.rs:33-52 | with the u32 sum as written, exactly the sums from 2^32 up overflow; below that it is the wave |
| Animation.MapGraphColorOverflows | src/animation.rs:37 | position `0xFFFF_FFFF` with the green offset overflows |
| Animation.MapGraphColor | src/animation.rs:33-52 | the wave at `(position + offset) mod 767` |
| Animation.MapGraphColorPeriodic | src/animation.rs:37 | the wave repeats every 767 positions |
| Animation.MapGraphColorContinuous | src/animation.rs:37-51 | neighbouring positions give values at most 1 apart, also where the period wraps |
| Animation.MapGraphColorExtremes | src/animation.rs:41-51 | the wave is 255 exactly at 255 and 256, and 0 exactly at 0 and from 511 on |
| Animation.ThreePhases | src/animation.rs:5-7 | with offsets 0, 255 and 511, one channel is always off and the sum is 256 or 255 |
| Animation.GetColorFromGraph | src/animation.rs:54-61 | the colour always has a channel off, and its channels add up to 256 on red's rising edge and 255 elsewhere |
| Animation.ColorContinuous | src/animation.rs:54-61 | consecutive positions give colours whose channels move by at most 1, except where the truncation to u32 wraps |
| Animation.ColorSpectrum | src/animation.rs:64-75 | every device ends up holding the colour for `millis / 100` with its other settings unchanged; every zone is dirty; in each buffer exactly the records of the listed zones get that colour in both slots, every other byte of every record, header and trailer stays; nothing is sent |
| Animation.SetColorOnOne | src/animation.rs:71-74 | `set_color` on one device of the list paints it, keeps those painted before painted, keeps every device's other settings and traffic, and changes each buffer only in the record that device recolours |
| Animation.Recolor | src/z390.rs:86-87 | a record with the colour in both colour slots and its effect, flags, colour flags and padding unchanged |
| Animation.FootprintsWithin | src/animation.rs:69-74 | what `color_spectrum` may change is exactly what the listed devices' setters may change: their objects and the zones' shared buffers, nothing else |
| Animation.SpectrumOnNewZone | src/animation.rs:64-75 | a caller that creates a buffer and a facade can run `color_spectrum` on them: the facade holds the colour, the report id is still `0x52` and nothing was sent |
| Animation.RepaintCovers | src/animation.rs:71-74 | painting a list in order recolours exactly the records its zone facades cover, whatever the order or repetition, and leaves the other records alone |

## Left out

- `find_hid_device` and the HID transport (`src/z390.rs:218-262`). The device is not opened, and the report lands in a log field `sent`. The `unwrap` on the send is not modelled.
- The `&mut ZoneData` of `borrow_zone_data_indexed` (`src/z390.rs:405-427`). The setters change the record in place through it; the model reads the record and writes the changed copy back with `write_zone_data_indexed`, which leaves the buffer in the same state.
- The `RefCell` borrows of the shared buffer. Each facade operation takes and releases the borrow within the call, so in single-threaded use `try_borrow_mut` always succeeds. The model has no failure branch for it.
- The nvapi FFI of the RTX 2080 (`nvapi::initialize`, the GPU enumeration, the I2C function lookup, the `unsafe` transmutes). The GPU's name is a constructor parameter. I2C writes are appended to `written`, and the panic on a failed write is not modelled.
- The SK621's wait for software control (the retry loop with one-second sleeps, `src/sk621.rs:28-36`) and the Cooler Master SDK. Full-colour commands are appended to `fullColorCommands`.
- `src/gpu.rs` and `src/main.rs` (device discovery, the main loop and its clock). `millis` is a parameter of `ColorSpectrum`.
- `MsiZone` and the other `MsiMode`/`RgbFusionMode` values. The interface only has the static mode, so the code never produces them.
- `MsiBrightness::Off`. `MsiBrightness` has an `Off` code (0), but the generic `RgbBrightness` has only the ten levels: its matches in `src/z390.rs:133-145` are exhaustive over `Level10`..`Level100`, so 0 is never written and `BrightnessOfCode` reads 0 back as no brightness.
- Animation.GetColorFromGraph: the `position as u32` truncation makes the wave jump every 2^32 tenths of a second. `ColorContinuous` excludes that point rather than describing the jump.
- Z390Report.Z390.ToBytes and Z390Zones.GetZ390RgbDevices: the source makes sixteen calls one after another in table order, and the model runs the same calls in a loop over `ZoneTable`.
- `Color` is a copy type in the source and a datatype here.
- The other dispatch methods of the `RgbDevice` interface (`set_mode`, `set_speed`, `set_brightness`, `get_name`, `display` through a `Box<dyn RgbDevice>`). `RgbDevices` dispatches only `set_color`, the one `color_spectrum` uses. Each implementation's own methods are modelled in its class.
- Animation.GetColorFromGraph and Animation.ColorSpectrum use the corrected `MapGraphColor`. With the source's u32 sum the call would panic in a debug build, or wrap in a release build, once `millis / 100` truncated to u32 comes within 511 of 2^32 (see Findings).

## Findings

| source | as written | input that shows it | evidently intended | confidence | as-written member | corrected member |
|---|---|---|---|---|---|---|
| src/animation.rs:37 | `position + offset` is a u32 addition; it panics in a debug build (or wraps in release) when the sum reaches 2^32 | `map_graph_color(0xFFFF_FFFF, 255)`, reached from `get_color_from_graph` once `millis / 100` truncated to u32 is at least 2^32 - 511 (about 13.6 years of uptime) | the wave at `(position + offset) mod 767` for every position | low, not executed | Animation.MapGraphColorAsWritten, Animation.MapGraphColorOverflows | Animation.MapGraphColor |
