/**
 * The Z390 feature report of src/z390.rs: the 10-byte zone record, the
 * sixteen zones and their fixed offsets, the 162-byte report and its
 * decoder, and the report buffer class shared by all zones.
 */
module Z390Report {
  import opened Options
  import opened Colors
  import opened MsiCodes

  // ---------------------------------------------------------------------------
  // The zone record

  const ZoneRecordSize: nat := 10

  /** One zone's state, in the order its ten bytes appear in the report. */
  datatype ZoneData = ZoneData(
    effect: Byte,
    color: Color,
    speedAndBrightnessFlags: Byte,
    color2: Color,
    colorFlags: Byte,
    padding: Byte)

  /** `ZoneData::new`: static effect, both colours black, full brightness, slow. */
  function NewZoneData(): (d: ZoneData)
    ensures d.effect == 1 && d.color == Black && d.color2 == Black
    ensures d.speedAndBrightnessFlags == 40
    ensures d.colorFlags == 0 && d.padding == 0
  {
    ZoneData(
      MsiModeCode(Static),
      NewColor(0, 0, 0),
      PackBits(MsiBrightnessLevel100, MsiSpeedLow) as int,
      NewColor(0, 0, 0),
      0,
      0)
  }

  /** The ten bytes `write_zone_data` puts at a zone's offset. */
  function EncodeZone(d: ZoneData): (bytes: seq<Byte>)
    ensures |bytes| == ZoneRecordSize
  {
    [d.effect, d.color.r, d.color.g, d.color.b, d.speedAndBrightnessFlags,
     d.color2.r, d.color2.g, d.color2.b, d.colorFlags, d.padding]
  }

  /** Reads a zone record back from its ten bytes. */
  function DecodeZone(bytes: seq<Byte>): (d: Option<ZoneData>)
    ensures d.Some? <==> |bytes| == ZoneRecordSize
    ensures d.Some? ==> EncodeZone(d.value) == bytes
  {
    if |bytes| != ZoneRecordSize then None
    else Some(ZoneData(bytes[0], Color(bytes[1], bytes[2], bytes[3]), bytes[4],
                       Color(bytes[5], bytes[6], bytes[7]), bytes[8], bytes[9]))
  }

  lemma ZoneRoundTrip(d: ZoneData)
    ensures DecodeZone(EncodeZone(d)) == Some(d)
  {
  }

  // ---------------------------------------------------------------------------
  // Zone identities and their fixed offsets

  const ZoneCount: nat := 16

  /** The sixteen zones of the report, named as the controller names them. */
  datatype ZoneIndex =
    JRgb1 | JRainbow1 | JCorsair1 | JCorsairOuterll120 |
    OnBoardLed | OnBoardLed1 | OnBoardLed2 | OnBoardLed3 | OnBoardLed4 | OnBoardLed5 |
    OnBoardLed6 | OnBoardLed7 | OnBoardLed8 | OnBoardLed9 | OnBoardLed10 | JRgb2

  /** The zones in the order their records lie in the report. */
  const ZoneTable: seq<ZoneIndex> := [
    JRgb1, JRainbow1, JCorsair1, JCorsairOuterll120,
    OnBoardLed, OnBoardLed1, OnBoardLed2, OnBoardLed3, OnBoardLed4, OnBoardLed5,
    OnBoardLed6, OnBoardLed7, OnBoardLed8, OnBoardLed9, OnBoardLed10, JRgb2]

  /** The position of a zone in the table. */
  function Ordinal(z: ZoneIndex): (k: nat)
    ensures k < ZoneCount
  {
    match z
    case JRgb1 => 0
    case JRainbow1 => 1
    case JCorsair1 => 2
    case JCorsairOuterll120 => 3
    case OnBoardLed => 4
    case OnBoardLed1 => 5
    case OnBoardLed2 => 6
    case OnBoardLed3 => 7
    case OnBoardLed4 => 8
    case OnBoardLed5 => 9
    case OnBoardLed6 => 10
    case OnBoardLed7 => 11
    case OnBoardLed8 => 12
    case OnBoardLed9 => 13
    case OnBoardLed10 => 14
    case JRgb2 => 15
  }

  /**
   * The static offset table (the `ZoneIndex` discriminants): the k-th zone of
   * the table starts at byte 1 + 10k, so records are back to back after the
   * report id and end before the save flag.
   */
  function Offset(z: ZoneIndex): (offset: nat)
    ensures offset == 1 + ZoneRecordSize * Ordinal(z)
    ensures 1 <= offset && offset + ZoneRecordSize <= 161
  {
    match z
    case JRgb1 => 1
    case JRainbow1 => 11
    case JCorsair1 => 21
    case JCorsairOuterll120 => 31
    case OnBoardLed => 41
    case OnBoardLed1 => 51
    case OnBoardLed2 => 61
    case OnBoardLed3 => 71
    case OnBoardLed4 => 81
    case OnBoardLed5 => 91
    case OnBoardLed6 => 101
    case OnBoardLed7 => 111
    case OnBoardLed8 => 121
    case OnBoardLed9 => 131
    case OnBoardLed10 => 141
    case JRgb2 => 151
  }

  /** Different zones occupy disjoint byte ranges. */
  lemma OffsetsDisjoint(z1: ZoneIndex, z2: ZoneIndex)
    ensures z1 != z2 <==>
      Offset(z1) + ZoneRecordSize <= Offset(z2) || Offset(z2) + ZoneRecordSize <= Offset(z1)
  {
  }

  /** The table lists each zone exactly once, at the position Ordinal gives it. */
  lemma TableOrdinal(k: nat, z: ZoneIndex)
    requires k < ZoneCount
    ensures ZoneTable[k] == z <==> Ordinal(z) == k
  {
  }

  /** No zone appears twice in the table. */
  lemma TableDistinct()
    ensures forall i, j :: 0 <= i < ZoneCount && 0 <= j < ZoneCount && i != j ==> ZoneTable[i] != ZoneTable[j]
  {
    forall i | 0 <= i < ZoneCount
      ensures Ordinal(ZoneTable[i]) == i
    {
      TableOrdinal(i, ZoneTable[i]);
    }
  }

  // ---------------------------------------------------------------------------
  // The 162-byte feature report

  const ReportId: Byte := 0x52
  const ReportSize: nat := 162

  /** The records of `zones`, back to back, in order. */
  function EncodeZones(zones: seq<ZoneData>): (bytes: seq<Byte>)
    ensures |bytes| == ZoneRecordSize * |zones|
  {
    if zones == [] then [] else EncodeZones(zones[..|zones| - 1]) + EncodeZone(zones[|zones| - 1])
  }

  /** Record k of the sequence occupies bytes 10k .. 10k+10 of its encoding. */
  lemma {:induction false} EncodeZonesAt(zones: seq<ZoneData>, k: nat)
    requires k < |zones|
    ensures EncodeZones(zones)[ZoneRecordSize * k .. ZoneRecordSize * k + ZoneRecordSize] == EncodeZone(zones[k])
    decreases |zones|
  {
    var n := |zones| - 1;
    var front := zones[..n];
    assert EncodeZones(zones) == EncodeZones(front) + EncodeZone(zones[n]);
    if k < n {
      EncodeZonesAt(front, k);
      assert EncodeZones(zones)[ZoneRecordSize * k .. ZoneRecordSize * k + ZoneRecordSize]
          == EncodeZones(front)[ZoneRecordSize * k .. ZoneRecordSize * k + ZoneRecordSize];
    } else {
      assert |EncodeZones(front)| == ZoneRecordSize * k;
    }
  }

  /** Appending one record to the prefix adds its ten bytes to the encoding. */
  lemma EncodeZonesSnoc(zones: seq<ZoneData>, k: nat)
    requires k < |zones|
    ensures EncodeZones(zones[..k + 1]) == EncodeZones(zones[..k]) + EncodeZone(zones[k])
  {
    assert zones[..k + 1][..k] == zones[..k];
  }

  /** The header followed by the records of the first k zones: what `to_bytes` has written after k zones. */
  function Written(reportId: Byte, zones: seq<ZoneData>, k: nat): (bytes: seq<Byte>)
    requires k <= |zones|
  {
    if k == 0 then [reportId] else Written(reportId, zones, k - 1) + EncodeZone(zones[k - 1])
  }

  lemma {:induction false} WrittenIsPrefix(reportId: Byte, zones: seq<ZoneData>, k: nat)
    requires k <= |zones|
    ensures Written(reportId, zones, k) == [reportId] + EncodeZones(zones[..k])
  {
    if k > 0 {
      WrittenIsPrefix(reportId, zones, k - 1);
      EncodeZonesSnoc(zones, k - 1);
    }
  }

  /** `to_bytes` as a value: report id, the sixteen records in table order, save flag. */
  function ReportBytes(reportId: Byte, zones: seq<ZoneData>, saveData: Byte): (bytes: seq<Byte>)
    requires |zones| == ZoneCount
    ensures |bytes| == ReportSize
    ensures bytes[0] == reportId && bytes[ReportSize - 1] == saveData
  {
    [reportId] + EncodeZones(zones) + [saveData]
  }

  /** Record k of the table sits at bytes 1 + 10k .. 11 + 10k of the report. */
  lemma RecordInReport(reportId: Byte, zones: seq<ZoneData>, saveData: Byte, k: nat)
    requires |zones| == ZoneCount && k < ZoneCount
    ensures ReportBytes(reportId, zones, saveData)[1 + ZoneRecordSize * k .. 1 + ZoneRecordSize * k + ZoneRecordSize]
         == EncodeZone(zones[k])
  {
    EncodeZonesAt(zones, k);
    var body := EncodeZones(zones);
    assert ReportBytes(reportId, zones, saveData)[1 + ZoneRecordSize * k .. 1 + ZoneRecordSize * k + ZoneRecordSize]
        == body[ZoneRecordSize * k .. ZoneRecordSize * k + ZoneRecordSize];
  }

  /** A zone's record sits at that zone's offset in the report. */
  lemma ZoneInReport(reportId: Byte, zones: seq<ZoneData>, saveData: Byte, z: ZoneIndex)
    requires |zones| == ZoneCount
    ensures ReportBytes(reportId, zones, saveData)[Offset(z) .. Offset(z) + ZoneRecordSize]
         == EncodeZone(zones[Ordinal(z)])
  {
    RecordInReport(reportId, zones, saveData, Ordinal(z));
  }

  /** The first four bytes of a zone's record in the report: its effect and its colour. */
  lemma ColorInReport(reportId: Byte, zones: seq<ZoneData>, saveData: Byte, z: ZoneIndex)
    requires |zones| == ZoneCount
    ensures var d := zones[Ordinal(z)];
      ReportBytes(reportId, zones, saveData)[Offset(z) .. Offset(z) + 4] == [d.effect, d.color.r, d.color.g, d.color.b]
  {
    var k := Ordinal(z);
    var offset := 1 + ZoneRecordSize * k;
    RecordInReport(reportId, zones, saveData, k);
    var bytes := ReportBytes(reportId, zones, saveData);
    var record := bytes[offset .. offset + ZoneRecordSize];
    var d := zones[k];
    assert record == EncodeZone(d);
    assert bytes[offset .. offset + 4] == record[..4];
    EncodeZoneHead(d);
  }

  lemma EncodeZoneHead(d: ZoneData)
    ensures EncodeZone(d)[..4] == [d.effect, d.color.r, d.color.g, d.color.b]
  {
  }

  /**
   * Replacing one zone's record changes the report only inside that zone's ten
   * bytes, and there it puts the new record.
   */
  lemma ReportUpdateIsLocal(reportId: Byte, zones: seq<ZoneData>, saveData: Byte, z: ZoneIndex, d: ZoneData)
    requires |zones| == ZoneCount
    ensures var before, after := ReportBytes(reportId, zones, saveData),
                                 ReportBytes(reportId, zones[Ordinal(z) := d], saveData);
      after[Offset(z) .. Offset(z) + ZoneRecordSize] == EncodeZone(d) &&
      forall j :: 0 <= j < ReportSize && !(Offset(z) <= j < Offset(z) + ZoneRecordSize) ==> after[j] == before[j]
  {
    var zones' := zones[Ordinal(z) := d];
    var offset := Offset(z);
    RecordInReport(reportId, zones', saveData, Ordinal(z));
    var before, after := ReportBytes(reportId, zones, saveData), ReportBytes(reportId, zones', saveData);
    forall j | 0 <= j < ReportSize && !(offset <= j < offset + ZoneRecordSize)
      ensures after[j] == before[j]
    {
      if 1 <= j < ReportSize - 1 {
        var k := (j - 1) / ZoneRecordSize;
        var i := (j - 1) % ZoneRecordSize;
        assert j == 1 + ZoneRecordSize * k + i;
        RecordInReport(reportId, zones, saveData, k);
        RecordInReport(reportId, zones', saveData, k);
        assert after[j] == EncodeZone(zones'[k])[i] == EncodeZone(zones[k])[i] == before[j];
      }
    }
  }

  /** The fields of a report, as a decoder sees them. */
  datatype ReportFields = ReportFields(reportId: Byte, zones: seq<ZoneData>, saveData: Byte)

  function DecodeZones(bytes: seq<Byte>): (zones: seq<ZoneData>)
    requires |bytes| % ZoneRecordSize == 0
    ensures |zones| == |bytes| / ZoneRecordSize
  {
    if bytes == [] then []
    else
      var n := |bytes| - ZoneRecordSize;
      DecodeZones(bytes[..n]) + [DecodeZone(bytes[n..]).value]
  }

  lemma {:induction false} DecodeEncodeZones(zones: seq<ZoneData>)
    ensures DecodeZones(EncodeZones(zones)) == zones
    decreases |zones|
  {
    if zones != [] {
      var n := |zones| - 1;
      DecodeZonesSnoc(EncodeZones(zones[..n]), EncodeZone(zones[n]));
      ZoneRoundTrip(zones[n]);
      DecodeEncodeZones(zones[..n]);
      assert zones == zones[..n] + [zones[n]];
    }
  }

  /** Decoding a block of records followed by one more record decodes the block, then that record. */
  lemma DecodeZonesSnoc(front: seq<Byte>, last: seq<Byte>)
    requires |front| % ZoneRecordSize == 0 && |last| == ZoneRecordSize
    ensures DecodeZones(front + last) == DecodeZones(front) + [DecodeZone(last).value]
  {
    var bytes := front + last;
    assert bytes[..|front|] == front;
    assert bytes[|front|..] == last;
  }

  /** Reads a 162-byte report back into its fields. */
  function DecodeReport(bytes: seq<Byte>): (fields: Option<ReportFields>)
    ensures fields.Some? <==> |bytes| == ReportSize
    ensures fields.Some? ==> |fields.value.zones| == ZoneCount
  {
    if |bytes| != ReportSize then None
    else Some(ReportFields(bytes[0], DecodeZones(bytes[1 .. ReportSize - 1]), bytes[ReportSize - 1]))
  }

  /** The report loses nothing: header, all sixteen records and the save flag read back. */
  lemma ReportRoundTrip(reportId: Byte, zones: seq<ZoneData>, saveData: Byte)
    requires |zones| == ZoneCount
    ensures DecodeReport(ReportBytes(reportId, zones, saveData)) == Some(ReportFields(reportId, zones, saveData))
  {
    var bytes := ReportBytes(reportId, zones, saveData);
    assert bytes[1 .. ReportSize - 1] == EncodeZones(zones);
    DecodeEncodeZones(zones);
  }

  /** Storing a record's fields one by one at `offset` splices its encoding into the buffer. */
  lemma SpliceRecord(before: seq<Byte>, after: seq<Byte>, offset: nat, d: ZoneData)
    requires offset + ZoneRecordSize <= |before|
    requires after == before[offset := d.effect][offset + 1 := d.color.r]
      [offset + 2 := d.color.g][offset + 3 := d.color.b]
      [offset + 4 := d.speedAndBrightnessFlags][offset + 5 := d.color2.r]
      [offset + 6 := d.color2.g][offset + 7 := d.color2.b]
      [offset + 8 := d.colorFlags][offset + 9 := d.padding]
    ensures after[..offset + ZoneRecordSize] == before[..offset] + EncodeZone(d)
    ensures after[offset + ZoneRecordSize..] == before[offset + ZoneRecordSize..]
  {
    var record := EncodeZone(d);
    forall i | 0 <= i < ZoneRecordSize
      ensures after[offset + i] == record[i]
    {
    }
    assert forall j :: 0 <= j < offset + ZoneRecordSize ==> after[..offset + ZoneRecordSize][j] == (before[..offset] + record)[j];
  }

  // ---------------------------------------------------------------------------
  // The report buffer shared by all zones of one controller

  /**
   * `Z390`: the report id, the sixteen zone records (a sequence indexed by
   * `Ordinal`), the save flag, and the transport's record of every feature
   * report sent to the controller, oldest first.
   */
  class Z390 {
    var reportId: Byte
    var zones: seq<ZoneData>
    var saveData: Byte
    var sent: seq<seq<Byte>>

    ghost predicate Valid()
      reads this
    {
      |zones| == ZoneCount
    }

    /** `Z390::new` once the HID device is open: every zone at its default, nothing sent yet. */
    constructor ()
      ensures Valid()
      ensures reportId == ReportId && saveData == 0 && sent == []
      ensures forall k :: 0 <= k < ZoneCount ==> zones[k] == NewZoneData()
    {
      reportId := ReportId;
      zones := seq(ZoneCount, _ => NewZoneData());
      saveData := 0;
      sent := [];
    }

    /** The record of one zone: the one whose bytes sit at that zone's offset in the report. */
    function BorrowZoneDataIndexed(zoneIndex: ZoneIndex): (d: ZoneData)
      reads this
      requires Valid()
      ensures EncodeZone(d) == ReportBytes(reportId, zones, saveData)[Offset(zoneIndex) .. Offset(zoneIndex) + ZoneRecordSize]
    {
      ZoneInReport(reportId, zones, saveData, zoneIndex);
      zones[Ordinal(zoneIndex)]
    }

    /** Replaces exactly one zone's record. */
    method WriteZoneDataIndexed(zoneIndex: ZoneIndex, zoneData: ZoneData)
      requires Valid()
      modifies this`zones
      ensures Valid()
      ensures zones == old(zones)[Ordinal(zoneIndex) := zoneData]
    {
      zones := zones[Ordinal(zoneIndex) := zoneData];
    }

    /** Replaces all sixteen records with the same one. */
    method WriteZoneDataAll(zoneData: ZoneData)
      requires Valid()
      modifies this`zones
      ensures Valid()
      ensures forall k :: 0 <= k < ZoneCount ==> zones[k] == zoneData
    {
      zones := seq(ZoneCount, _ => zoneData);
    }

    /** Sends the serialised report as one feature report. */
    method WriteToDevice()
      requires Valid()
      modifies this`sent
      ensures sent == old(sent) + [ReportBytes(reportId, zones, saveData)]
    {
      var buffer := ToBytes();
      sent := sent + [buffer];
    }

    /** Serialises the buffer: a fresh 162-byte array filled field by field. */
    method ToBytes() returns (bytes: seq<Byte>)
      requires Valid()
      ensures bytes == ReportBytes(reportId, zones, saveData)
    {
      var buffer := new Byte[ReportSize](_ => 0);
      buffer[0] := reportId;
      // to_bytes makes the sixteen calls one after another in table order;
      // the loop runs the same calls over ZoneTable.
      for k := 0 to ZoneCount
        invariant buffer[..1 + ZoneRecordSize * k] == Written(reportId, zones, k)
      {
        TableOrdinal(k, ZoneTable[k]);
        WriteZoneData(zones[k], ZoneTable[k], buffer);
      }
      WrittenIsPrefix(reportId, zones, ZoneCount);
      assert zones[..ZoneCount] == zones;
      buffer[ReportSize - 1] := saveData;
      bytes := buffer[..];
      assert bytes == buffer[..ReportSize - 1] + [saveData];
    }

    /**
     * Writes one record's ten bytes at its zone's offset; the bytes before its
     * offset and after its record are left as they were.
     */
    static method WriteZoneData(zoneData: ZoneData, zoneIndex: ZoneIndex, buffer: array<Byte>)
      requires Offset(zoneIndex) + ZoneRecordSize <= buffer.Length
      modifies buffer
      ensures buffer[..Offset(zoneIndex) + ZoneRecordSize] == old(buffer[..Offset(zoneIndex)]) + EncodeZone(zoneData)
      ensures buffer[Offset(zoneIndex) + ZoneRecordSize..] == old(buffer[Offset(zoneIndex) + ZoneRecordSize..])
    {
      var offset := Offset(zoneIndex);
      ghost var before: seq<Byte> := buffer[..];
      buffer[offset + 0] := zoneData.effect;
      buffer[offset + 1] := zoneData.color.r;
      buffer[offset + 2] := zoneData.color.g;
      buffer[offset + 3] := zoneData.color.b;
      buffer[offset + 4] := zoneData.speedAndBrightnessFlags;
      buffer[offset + 5] := zoneData.color2.r;
      buffer[offset + 6] := zoneData.color2.g;
      buffer[offset + 7] := zoneData.color2.b;
      buffer[offset + 8] := zoneData.colorFlags;
      buffer[offset + 9] := zoneData.padding;
      assert buffer[..] == before[offset := zoneData.effect][offset + 1 := zoneData.color.r]
        [offset + 2 := zoneData.color.g][offset + 3 := zoneData.color.b]
        [offset + 4 := zoneData.speedAndBrightnessFlags][offset + 5 := zoneData.color2.r]
        [offset + 6 := zoneData.color2.g][offset + 7 := zoneData.color2.b]
        [offset + 8 := zoneData.colorFlags][offset + 9 := zoneData.padding];
      SpliceRecord(before, buffer[..], offset, zoneData);
    }
  }
}
