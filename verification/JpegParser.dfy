/**
 `parse_jpeg_for_rtp` of esphome/components/voip_stack/rtp_jpeg.cpp: what a baseline JPEG frame must look like to be
 sent as RFC 2435 type 0 or 1, and the loop that decides it.
 */
module JpegParser {
  import opened Machine
  import opened JpegTables
  import opened JpegFormat

  datatype ParseError = Malformed | UnsupportedPrecision | UnsupportedSampling | NonstandardHuffman | UnsupportedProcess

  datatype Parsed = Parsed(frame: Frame) | Failed(error: ParseError)

  /** What has been read: `quantizersSeen` and `tablesSeen` are the tables found, `sawFrame` a baseline frame header. */
  datatype Progress = Progress(
    frame: Frame,
    quantizersSeen: set<int>,
    sawFrame: bool,
    sawTables: bool,
    tablesSeen: set<byte>)

  function Nothing(): (s: Progress)
    ensures |s.frame.quantizers| == TABLE_BYTES
  {
    Progress(Frame([], seq(TABLE_BYTES, _ => 0), 0, 0, 0, 0), {}, false, false, {})
  }

  datatype Applied = Applied(progress: Progress) | Rejected(error: ParseError)

  // ---------- The segments ----------

  function WithQuantizer(s: Progress, table: int, values: seq<byte>): (r: Progress)
    requires 0 <= table <= 1 && |values| == 64 && |s.frame.quantizers| == TABLE_BYTES
    ensures |r.frame.quantizers| == TABLE_BYTES
  {
    s.(frame := s.frame.(quantizers :=
         if table == 0 then values + s.frame.quantizers[64..] else s.frame.quantizers[..64] + values),
       quantizersSeen := s.quantizersSeen + {table})
  }

  /** A DQT segment from `offset` on: 8-bit tables 0 and 1, each at most once in a frame. */
  function ReadQuantizers(payload: seq<byte>, offset: nat, s: Progress): (r: Applied)
    requires offset <= |payload| && |s.frame.quantizers| == TABLE_BYTES
    ensures r.Applied? ==> |r.progress.frame.quantizers| == TABLE_BYTES
    decreases |payload| - offset
  {
    if offset == |payload| then Applied(s)
    else
      var precision, table := payload[offset] / 16, payload[offset] % 16;
      if precision != 0 then Rejected(UnsupportedPrecision)
      else if table > 1 || table in s.quantizersSeen || offset + 65 > |payload| then Rejected(Malformed)
      else ReadQuantizers(payload, offset + 65, WithQuantizer(s, table, payload[offset + 1..offset + 65]))
  }

  /** A DHT segment: standard tables only. */
  function ReadTables(payload: seq<byte>, s: Progress): (r: Applied) {
    var seen := Consumed(payload, 0, s.tablesSeen);
    if seen.None? then Rejected(NonstandardHuffman)
    else Applied(s.(tablesSeen := seen.value, sawTables := true))
  }

  /** A baseline frame header: 8 bits, three components, at most 2040 pixels a side, 4:2:2 or 4:2:0. */
  function ReadFrameHeader(payload: seq<byte>, s: Progress): Applied {
    if |payload| != 15 || payload[5] != 3 then Rejected(Malformed)
    else if payload[0] != 8 then Rejected(UnsupportedPrecision)
    else
      var height, width := ReadBe16(payload, 1), ReadBe16(payload, 3);
      if width == 0 || height == 0 || width > 2040 || height > 2040 then Rejected(Malformed)
      else if payload[6] != 1 || payload[8..] != [0, 2, 0x11, 1, 3, 0x11, 1] then Rejected(UnsupportedSampling)
      else if payload[7] == 0x21 || payload[7] == 0x22 then
        Applied(s.(frame := s.frame.(width := width, height := height, kind := payload[7] - 0x21), sawFrame := true))
      else Rejected(UnsupportedSampling)
  }

  function ReadRestartInterval(payload: seq<byte>, s: Progress): Applied {
    if |payload| != 2 || ReadBe16(payload, 0) == 0 then Rejected(Malformed)
    else Applied(s.(frame := s.frame.(restartInterval := ReadBe16(payload, 0))))
  }

  /** Every segment but the scan header. */
  function Apply(marker: byte, payload: seq<byte>, s: Progress): (r: Applied)
    requires |s.frame.quantizers| == TABLE_BYTES
    ensures r.Applied? ==> |r.progress.frame.quantizers| == TABLE_BYTES
  {
    if marker == 0xDB then ReadQuantizers(payload, 0, s)
    else if marker == 0xC4 then ReadTables(payload, s)
    else if marker == 0xC0 then ReadFrameHeader(payload, s)
    else if marker == 0xDD then ReadRestartInterval(payload, s)
    else if 0xC1 <= marker <= 0xCF && marker != 0xC8 && marker != 0xCC then Rejected(UnsupportedProcess)
    else Applied(s)
  }

  // ---------- The scan ----------

  predicate EoiAt(data: seq<byte>, at: nat) {
    at + 2 <= |data| && data[at] == 0xFF && data[at + 1] == 0xD9
  }

  /** The last end-of-image marker that starts in `[start, end - 2]`. */
  function LastEoi(data: seq<byte>, start: nat, end: nat): (r: Option<nat>)
    requires end <= |data|
    ensures r.None? ==> forall at: nat :: start <= at && at + 2 <= end ==> !EoiAt(data, at)
    ensures r.Some? ==> start <= r.value && r.value + 2 <= end && EoiAt(data, r.value)
    ensures r.Some? ==> forall at: nat :: r.value < at && at + 2 <= end ==> !EoiAt(data, at)
    decreases end
  {
    if end < start + 2 then None
    else if EoiAt(data, end - 2) then Some(end - 2)
    else LastEoi(data, start, end - 1)
  }

  /** What is wrong with the scan header, given what came before it. */
  function ScanError(payload: seq<byte>, s: Progress): Option<ParseError> {
    if !s.sawFrame || 0 !in s.quantizersSeen || 1 !in s.quantizersSeen || payload != SCAN_HEADER then Some(Malformed)
    else if s.sawTables && s.tablesSeen != {0x00, 0x01, 0x10, 0x11} then Some(NonstandardHuffman)
    else None
  }

  function ReadScan(data: seq<byte>, start: nat, payload: seq<byte>, s: Progress): Parsed
    requires start <= |data|
  {
    if ScanError(payload, s).Some? then Failed(ScanError(payload, s).value)
    else
      var end := LastEoi(data, start, |data|);
      if end.None? || end.value <= start then Failed(Malformed)
      else Parsed(s.frame.(scan := data[start..end.value]))
  }

  // ---------- The frame ----------

  /** The first position from `at` on that holds no fill byte. */
  function PastFill(data: seq<byte>, at: nat): (p: nat)
    requires at <= |data|
    ensures at <= p <= |data| && (p < |data| ==> data[p] != 0xFF)
    decreases |data| - at
  {
    if at < |data| && data[at] == 0xFF then PastFill(data, at + 1) else at
  }

  predicate Standalone(marker: byte) {
    0xD0 <= marker <= 0xD8 || marker == 0x01
  }

  /** The payload of the segment whose length field is at `at`. */
  function PayloadAt(data: seq<byte>, at: nat): (r: Option<seq<byte>>)
    ensures r.Some? ==> at + 2 + |r.value| <= |data|
  {
    if at + 2 > |data| || ReadBe16(data, at) < 2 || at + ReadBe16(data, at) > |data| then None
    else Some(data[at + 2..at + ReadBe16(data, at)])
  }

  /** Reads segments from `at` on. */
  function ParseFrom(data: seq<byte>, at: nat, s: Progress): Parsed
    requires at <= |data| && |s.frame.quantizers| == TABLE_BYTES
    decreases |data| - at
  {
    if at + 1 >= |data| || data[at] != 0xFF then Failed(Malformed)
    else
      var p := PastFill(data, at);
      if p >= |data| || data[p] == 0xD9 then Failed(Malformed)
      else if Standalone(data[p]) then ParseFrom(data, p + 1, s)
      else
        var payload := PayloadAt(data, p + 1);
        if payload.None? then Failed(Malformed)
        else if data[p] == 0xDA then ReadScan(data, p + 3 + |payload.value|, payload.value, s)
        else
          var applied := Apply(data[p], payload.value, s);
          if applied.Rejected? then Failed(applied.error)
          else ParseFrom(data, p + 3 + |payload.value|, applied.progress)
  }

  function Parse(data: seq<byte>): Parsed {
    if |data| < 4 || data[0] != 0xFF || data[1] != 0xD8 then Failed(Malformed) else ParseFrom(data, 2, Nothing())
  }

  // ---------- The loops ----------

  method ReadQuantizerSegment(payload: seq<byte>, s: Progress) returns (r: Applied)
    requires |s.frame.quantizers| == TABLE_BYTES
    ensures r == ReadQuantizers(payload, 0, s)
  {
    var offset, progress := 0, s;
    while offset < |payload|
      invariant offset <= |payload| && |progress.frame.quantizers| == TABLE_BYTES
      invariant ReadQuantizers(payload, 0, s) == ReadQuantizers(payload, offset, progress)
    {
      var precision, table := payload[offset] / 16, payload[offset] % 16;
      offset := offset + 1;
      if precision != 0 {
        return Rejected(UnsupportedPrecision);
      }
      if table > 1 || table in progress.quantizersSeen || offset + 64 > |payload| {
        return Rejected(Malformed);
      }
      progress := WithQuantizer(progress, table, payload[offset..offset + 64]);
      offset := offset + 64;
    }
    return Applied(progress);
  }

  method FindLastEoi(data: seq<byte>, start: nat) returns (r: Option<nat>)
    requires start <= |data|
    ensures r == LastEoi(data, start, |data|)
  {
    var end := |data|;
    while end >= start + 2
      invariant start <= end <= |data|
      invariant LastEoi(data, start, |data|) == LastEoi(data, start, end)
    {
      if data[end - 2] == 0xFF && data[end - 1] == 0xD9 {
        return Some(end - 2);
      }
      end := end - 1;
    }
    return None;
  }

  method ParseScan(data: seq<byte>, start: nat, payload: seq<byte>, s: Progress) returns (r: Parsed)
    requires start <= |data|
    ensures r == ReadScan(data, start, payload, s)
  {
    var error := ScanError(payload, s);
    if error.Some? {
      return Failed(error.value);
    }
    var end := FindLastEoi(data, start);
    if end.None? || end.value <= start {
      return Failed(Malformed);
    }
    return Parsed(s.frame.(scan := data[start..end.value]));
  }

  method ApplySegment(marker: byte, payload: seq<byte>, s: Progress) returns (r: Applied)
    requires |s.frame.quantizers| == TABLE_BYTES
    ensures r == Apply(marker, payload, s)
  {
    hide Consumed;
    if marker == 0xDB {
      r := ReadQuantizerSegment(payload, s);
    } else if marker == 0xC4 {
      var seen := ConsumeStandardTables(payload, s.tablesSeen);
      if seen.None? {
        return Rejected(NonstandardHuffman);
      }
      r := Applied(s.(tablesSeen := seen.value, sawTables := true));
    } else if marker == 0xC0 {
      r := ReadFrameHeader(payload, s);
    } else if marker == 0xDD {
      r := ReadRestartInterval(payload, s);
    } else if 0xC1 <= marker <= 0xCF && marker != 0xC4 && marker != 0xC8 && marker != 0xCC {
      r := Rejected(UnsupportedProcess);
    } else {
      r := Applied(s);
    }
  }

  lemma FillIsSkipped(data: seq<byte>, at: nat)
    requires at < |data| && data[at] == 0xFF
    ensures PastFill(data, at) > at
  {
  }

  method SkipFill(data: seq<byte>, at: nat) returns (position: nat)
    requires at <= |data|
    ensures position == PastFill(data, at)
  {
    position := at;
    while position < |data| && data[position] == 0xFF
      invariant at <= position <= |data|
      invariant PastFill(data, at) == PastFill(data, position)
    {
      position := position + 1;
    }
  }

  /** `parse_jpeg_for_rtp`. */
  method ParseJpegForRtp(data: seq<byte>) returns (r: Parsed)
    ensures r == Parse(data)
  {
    hide Apply, ReadScan, PastFill;
    if |data| < 4 || data[0] != 0xFF || data[1] != 0xD8 {
      return Failed(Malformed);
    }
    var progress, position := Nothing(), 2;
    while position + 1 < |data|
      invariant position <= |data| && |progress.frame.quantizers| == TABLE_BYTES
      invariant Parse(data) == ParseFrom(data, position, progress)
      decreases |data| - position
    {
      if data[position] != 0xFF {
        return Failed(Malformed);
      }
      FillIsSkipped(data, position);
      position := SkipFill(data, position);
      if position >= |data| {
        return Failed(Malformed);
      }
      var marker := data[position];
      position := position + 1;
      if marker == 0xD9 {
        break;
      }
      if marker == 0xD8 || (marker >= 0xD0 && marker <= 0xD7) || marker == 0x01 {
        continue;
      }
      if position + 2 > |data| {
        return Failed(Malformed);
      }
      var length := ReadBe16(data, position);
      if length < 2 || position + length > |data| {
        return Failed(Malformed);
      }
      var payload := data[position + 2..position + length];
      if marker == 0xDA {
        r := ParseScan(data, position + length, payload, progress);
        return;
      }
      var applied := ApplySegment(marker, payload, progress);
      if applied.Rejected? {
        return Failed(applied.error);
      }
      progress := applied.progress;
      position := position + length;
    }
    return Failed(Malformed);
  }
}
