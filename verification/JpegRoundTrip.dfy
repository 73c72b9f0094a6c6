/** What parsing promises: every frame it accepts can be sent, and a rebuilt header parses back. */
module JpegRoundTrip {
  import opened Machine
  import opened JpegTables
  import opened JpegFormat
  import opened JpegParser

  // ---------- What an accepted frame is ----------

  /** The progress is that of a frame the fragment headers can describe, once the scan is known. */
  predicate Sound(s: Progress) {
    && |s.frame.quantizers| == TABLE_BYTES
    && s.frame.kind <= 1
    && (s.sawFrame ==> 0 < s.frame.width <= 2040 && 0 < s.frame.height <= 2040)
  }

  lemma {:induction false} QuantizersKeepSound(payload: seq<byte>, offset: nat, s: Progress)
    requires Sound(s) && offset <= |payload|
    ensures var r := ReadQuantizers(payload, offset, s); r.Applied? ==> Sound(r.progress)
    decreases |payload| - offset
  {
    if offset < |payload| && payload[offset] / 16 == 0 && payload[offset] % 16 <= 1 && offset + 65 <= |payload| {
      QuantizersKeepSound(payload, offset + 65, WithQuantizer(s, payload[offset] % 16, payload[offset + 1..offset + 65]));
    }
  }

  /** `frame` is what stands in `data`: its scan runs from some place up to the last end-of-image marker. */
  ghost predicate ScanOf(frame: Frame, data: seq<byte>) {
    exists start: nat, end: nat ::
      && start < end && EoiAt(data, end) && frame.scan == data[start..end]
      && forall at: nat :: end < at ==> !EoiAt(data, at)
  }

  lemma ApplyKeepsSound(marker: byte, payload: seq<byte>, s: Progress)
    requires Sound(s)
    ensures var r := Apply(marker, payload, s); r.Applied? ==> Sound(r.progress)
  {
    hide ReadQuantizers, Consumed, ReadBe16;
    QuantizersKeepSound(payload, 0, s);
  }

  lemma ScanIsSound(data: seq<byte>, start: nat, payload: seq<byte>, s: Progress)
    requires start <= |data| && Sound(s)
    ensures var r := ReadScan(data, start, payload, s); r.Parsed? ==> Describable(r.frame) && ScanOf(r.frame, data)
  {
    hide LastEoi;
  }

  lemma {:induction false} ParsedFrom(data: seq<byte>, at: nat, s: Progress)
    requires at <= |data| && Sound(s)
    ensures var r := ParseFrom(data, at, s); r.Parsed? ==> Describable(r.frame) && ScanOf(r.frame, data)
    decreases |data| - at
  {
    hide Apply, ReadScan, Describable, ScanOf;
    if at + 1 < |data| && data[at] == 0xFF {
      var p := PastFill(data, at);
      if p < |data| && data[p] != 0xD9 {
        if Standalone(data[p]) {
          ParsedFrom(data, p + 1, s);
        } else if PayloadAt(data, p + 1).Some? {
          var payload := PayloadAt(data, p + 1).value;
          ScanIsSound(data, p + 3 + |payload|, payload, s);
          ApplyKeepsSound(data[p], payload, s);
          if Apply(data[p], payload, s).Applied? {
            ParsedFrom(data, p + 3 + |payload|, Apply(data[p], payload, s).progress);
          }
        }
      }
    }
  }

  /**
   Every accepted frame can be described by fragment headers, and its scan runs up to the last end-of-image marker
   of the file, whatever markers the scan itself holds.
   */
  lemma ParsedIsDescribable(data: seq<byte>)
    ensures Parse(data).Parsed? ==> Describable(Parse(data).frame) && ScanOf(Parse(data).frame, data)
  {
    if |data| >= 4 {
      ParsedFrom(data, 2, Nothing());
    }
  }

  // ---------- A rebuilt frame parses back ----------

  /** The parser reads one well-formed segment and goes on behind it. */
  lemma SegmentRead(front: seq<byte>, marker: byte, payload: seq<byte>, rest: seq<byte>, s: Progress)
    requires |payload| + 2 < 0x1_0000 && |s.frame.quantizers| == TABLE_BYTES
    requires marker != 0xFF && marker != 0xD9 && marker != 0xDA && !Standalone(marker)
    ensures var data := front + Segment(marker, payload) + rest;
            ParseFrom(data, |front|, s) ==
            match Apply(marker, payload, s)
            case Rejected(e) => Failed(e)
            case Applied(p) => ParseFrom(data, |front| + |Segment(marker, payload)|, p)
  {
    hide Apply, ReadScan;
    SegmentPlace(front, marker, payload, rest);
  }

  lemma Be16Reads(data: seq<byte>, at: nat, x: u16)
    requires at + 2 <= |data| && data[at] == x / 0x100 && data[at + 1] == x % 0x100
    ensures ReadBe16(data, at) == x
  {
    assert x == x / 0x100 * 0x100 + x % 0x100;
  }

  lemma PayloadReads(data: seq<byte>, at: nat, payload: seq<byte>)
    requires |payload| + 2 < 0x1_0000 && at + 2 + |payload| <= |data|
    requires data[at] == (|payload| + 2) / 0x100 && data[at + 1] == (|payload| + 2) % 0x100
    requires data[at + 2..at + 2 + |payload|] == payload
    ensures PayloadAt(data, at) == Some(payload)
  {
    Be16Reads(data, at, |payload| + 2);
    hide ReadBe16;
  }

  lemma SegmentPlace(front: seq<byte>, marker: byte, payload: seq<byte>, rest: seq<byte>)
    requires |payload| + 2 < 0x1_0000 && marker != 0xFF
    ensures var data := front + Segment(marker, payload) + rest;
            && data[|front|] == 0xFF
            && PastFill(data, |front|) == |front| + 1 && data[|front| + 1] == marker
            && PayloadAt(data, |front| + 2) == Some(payload)
  {
    var data := front + Segment(marker, payload) + rest;
    var at := |front|;
    assert data[at] == Segment(marker, payload)[0] && data[at + 1] == Segment(marker, payload)[1];
    assert data[at + 2] == Segment(marker, payload)[2] && data[at + 3] == Segment(marker, payload)[3];
    assert Segment(marker, payload)[4..] == payload;
    assert data[at + 4..at + 4 + |payload|] == payload;
    hide Segment, PayloadAt, ReadBe16;
    PayloadReads(data, at + 2, payload);
    assert PastFill(data, at) == PastFill(data, at + 1);
  }

  /** One well-formed segment, as a step along `data`. */
  lemma Advance(data: seq<byte>, front: seq<byte>, marker: byte, payload: seq<byte>, rest: seq<byte>,
                s: Progress, s': Progress)
    requires |payload| + 2 < 0x1_0000 && |s.frame.quantizers| == TABLE_BYTES
    requires marker != 0xFF && marker != 0xD9 && marker != 0xDA && !Standalone(marker)
    requires data == front + (Segment(marker, payload) + rest) && Apply(marker, payload, s) == Applied(s')
    ensures |s'.frame.quantizers| == TABLE_BYTES && data == front + Segment(marker, payload) + rest
    ensures ParseFrom(data, |front|, s) == ParseFrom(data, |front + Segment(marker, payload)|, s')
  {
    hide Segment, ParseFrom, Apply;
    assert data == front + Segment(marker, payload) + rest;
    SegmentRead(front, marker, payload, rest, s);
  }

  lemma QuantizersApply(quantizers: seq<byte>)
    requires |quantizers| == TABLE_BYTES
    ensures Apply(0xDB, QuantizerPayload(quantizers), Nothing())
            == Applied(Nothing().(frame := Nothing().frame.(quantizers := quantizers), quantizersSeen := {0, 1}))
  {
    var payload := QuantizerPayload(quantizers);
    assert payload[0] == 0 && payload[1..65] == quantizers[..64];
    assert payload[65] == 1 && payload[66..130] == quantizers[64..];
    var half := WithQuantizer(Nothing(), 0, quantizers[..64]);
    assert half.frame.quantizers[..64] == quantizers[..64];
    var whole := WithQuantizer(half, 1, quantizers[64..]);
    assert whole.frame.quantizers == quantizers && whole.quantizersSeen == {0, 1};
    hide QuantizerPayload;
    assert ReadQuantizers(payload, 65, half) == ReadQuantizers(payload, 130, whole);
    assert ReadQuantizers(payload, 0, Nothing()) == ReadQuantizers(payload, 65, half);
  }

  lemma FrameApplies(kind: byte, widthBlocks: byte, heightBlocks: byte, s: Progress)
    requires kind <= 1 && widthBlocks != 0 && heightBlocks != 0 && |s.frame.quantizers| == TABLE_BYTES
    ensures Apply(0xC0, FramePayload(kind, widthBlocks, heightBlocks), s)
            == Applied(s.(frame := s.frame.(width := widthBlocks * 8, height := heightBlocks * 8, kind := kind), sawFrame := true))
  {
    var payload := FramePayload(kind, widthBlocks, heightBlocks);
    Be16Reads(payload, 1, heightBlocks * 8);
    Be16Reads(payload, 3, widthBlocks * 8);
    hide ReadBe16;
    assert payload[8..] == [0, 2, 0x11, 1, 3, 0x11, 1];
  }

  lemma RestartApplies(restartInterval: u16, s: Progress)
    requires restartInterval != 0 && |s.frame.quantizers| == TABLE_BYTES
    ensures Apply(0xDD, Be16(restartInterval), s)
            == Applied(s.(frame := s.frame.(restartInterval := restartInterval)))
  {
    Be16Reads(Be16(restartInterval), 0, restartInterval);
  }

  lemma TablesApply(s: Progress)
    requires s.tablesSeen == {} && |s.frame.quantizers| == TABLE_BYTES
    ensures Apply(0xC4, StandardTables(), s)
            == Applied(s.(tablesSeen := {0x00, 0x01, 0x10, 0x11}, sawTables := true))
  {
    hide StandardTables, Consumed;
    StandardTablesConsumed();
  }

  /** The scan of a rebuilt frame ends at the marker appended to it, the last in the data. */
  lemma ScanReads(front: seq<byte>, scan: seq<byte>, s: Progress)
    requires scan != [] && ScanError(SCAN_HEADER, s).None?
    ensures var data := front + Segment(0xDA, SCAN_HEADER) + (scan + EOI);
            ReadScan(data, |front| + 14, SCAN_HEADER, s) == Parsed(s.frame.(scan := scan))
  {
    var data := front + Segment(0xDA, SCAN_HEADER) + (scan + EOI);
    var start := |front| + 14;
    assert data[start..] == scan + EOI;
    assert data[|data| - 2] == data[start..][|scan|] && data[|data| - 1] == data[start..][|scan| + 1];
    hide ScanError, Segment;
    assert LastEoi(data, start, |data|) == Some(|data| - 2);
    assert data[start..|data| - 2] == data[start..][..|scan|];
  }

  lemma ScanRead(front: seq<byte>, scan: seq<byte>, s: Progress)
    requires scan != [] && ScanError(SCAN_HEADER, s).None? && |s.frame.quantizers| == TABLE_BYTES
    ensures ParseFrom(front + Segment(0xDA, SCAN_HEADER) + (scan + EOI), |front|, s) == Parsed(s.frame.(scan := scan))
  {
    hide ReadScan, ScanError, PayloadAt, PastFill, Segment, Apply;
    SegmentPlace(front, 0xDA, SCAN_HEADER, scan + EOI);
    ScanReads(front, scan, s);
  }

  /** What a parser has gathered just before the frame header of a rebuilt frame. */
  function TablesRead(quantizers: seq<byte>, restartInterval: u16): Progress {
    Nothing().(frame := Nothing().frame.(quantizers := quantizers, restartInterval := restartInterval),
               quantizersSeen := {0, 1})
  }

  function HeaderFront(quantizers: seq<byte>, restartInterval: u16): seq<byte>
    requires |quantizers| == TABLE_BYTES
  {
    SOI + Segment(0xE0, JFIF) + Segment(0xDB, QuantizerPayload(quantizers)) + RestartSegment(restartInterval)
  }

  lemma FrontReads(quantizers: seq<byte>, restartInterval: u16, rest: seq<byte>)
    requires |quantizers| == TABLE_BYTES
    ensures var front := HeaderFront(quantizers, restartInterval);
            Parse(front + rest) == ParseFrom(front + rest, |front|, TablesRead(quantizers, restartInterval))
  {
    FrontSplits(quantizers, restartInterval, rest);
    QuantizersApply(quantizers);
    var s := TablesRead(quantizers, 0);
    assert Apply(0xDB, QuantizerPayload(quantizers), Nothing()) == Applied(s);
    assert Apply(0xE0, JFIF, Nothing()) == Applied(Nothing());
    hide Segment, QuantizerPayload, RestartSegment, HeaderFront, Apply, ParseFrom;
    if restartInterval != 0 {
      RestartApplies(restartInterval, s);
      assert s.(frame := s.frame.(restartInterval := restartInterval)) == TablesRead(quantizers, restartInterval);
    }
    FrontSteps(HeaderFront(quantizers, restartInterval) + rest, quantizers, restartInterval, rest);
  }

  lemma FrontSplits(quantizers: seq<byte>, restartInterval: u16, rest: seq<byte>)
    requires |quantizers| == TABLE_BYTES
    ensures var data := HeaderFront(quantizers, restartInterval) + rest;
            && |data| >= 4 && data[0] == 0xFF && data[1] == 0xD8
            && data == SOI + (Segment(0xE0, JFIF)
                              + (Segment(0xDB, QuantizerPayload(quantizers)) + (RestartSegment(restartInterval) + rest)))
  {
    hide Segment, QuantizerPayload, RestartSegment;
  }

  lemma FrontSteps(data: seq<byte>, quantizers: seq<byte>, restartInterval: u16, rest: seq<byte>)
    requires |quantizers| == TABLE_BYTES
    requires data == SOI + (Segment(0xE0, JFIF)
                            + (Segment(0xDB, QuantizerPayload(quantizers)) + (RestartSegment(restartInterval) + rest)))
    requires Apply(0xE0, JFIF, Nothing()) == Applied(Nothing())
    requires Apply(0xDB, QuantizerPayload(quantizers), Nothing()) == Applied(TablesRead(quantizers, 0))
    requires restartInterval != 0 ==>
               Apply(0xDD, Be16(restartInterval), TablesRead(quantizers, 0)) == Applied(TablesRead(quantizers, restartInterval))
    ensures ParseFrom(data, 2, Nothing())
            == ParseFrom(data, |HeaderFront(quantizers, restartInterval)|, TablesRead(quantizers, restartInterval))
  {
    hide Segment, QuantizerPayload, Apply, ParseFrom, TablesRead, Be16, Nothing;
    var restart := RestartSegment(restartInterval);
    var jfif, tables := Segment(0xE0, JFIF), Segment(0xDB, QuantizerPayload(quantizers));
    Advance(data, SOI, 0xE0, JFIF, tables + (restart + rest), Nothing(), Nothing());
    Advance(data, SOI + jfif, 0xDB, QuantizerPayload(quantizers), restart + rest, Nothing(), TablesRead(quantizers, 0));
    if restartInterval != 0 {
      Advance(data, SOI + jfif + tables, 0xDD, Be16(restartInterval), rest,
              TablesRead(quantizers, 0), TablesRead(quantizers, restartInterval));
    }
  }

  /**
   A rebuilt frame parses back to exactly what it was built from, for every scan, even one that itself holds
   end-of-image markers.
   */
  lemma RebuiltParses(kind: byte, widthBlocks: byte, heightBlocks: byte, quantizers: seq<byte>, restartInterval: u16,
                      scan: seq<byte>)
    requires kind <= 1 && widthBlocks != 0 && heightBlocks != 0 && |quantizers| == TABLE_BYTES && scan != []
    ensures Parse(InterchangeHeader(kind, widthBlocks, heightBlocks, quantizers, restartInterval) + scan + EOI)
            == Parsed(Frame(scan, quantizers, widthBlocks * 8, heightBlocks * 8, restartInterval, kind))
  {
    var s := TablesRead(quantizers, restartInterval);
    FrameApplies(kind, widthBlocks, heightBlocks, s);
    var s' := Apply(0xC0, FramePayload(kind, widthBlocks, heightBlocks), s).progress;
    TablesApply(s');
    var s'' := Apply(0xC4, StandardTables(), s').progress;
    assert ScanError(SCAN_HEADER, s'').None?;
    hide Segment, FramePayload, StandardTables, Apply, ParseFrom, Parse, HeaderFront, ScanError, TablesRead;
    HeaderIsFront(kind, widthBlocks, heightBlocks, quantizers, restartInterval, scan);
    BackSteps(HeaderFront(quantizers, restartInterval), kind, widthBlocks, heightBlocks, scan, s, s', s'');
    FrontReads(quantizers, restartInterval,
               Segment(0xC0, FramePayload(kind, widthBlocks, heightBlocks))
               + (Segment(0xC4, StandardTables()) + (Segment(0xDA, SCAN_HEADER) + (scan + EOI))));
  }

  lemma BackSteps(front: seq<byte>, kind: byte, widthBlocks: byte, heightBlocks: byte, scan: seq<byte>,
                  s: Progress, s': Progress, s'': Progress)
    requires scan != [] && |s.frame.quantizers| == TABLE_BYTES && ScanError(SCAN_HEADER, s'').None?
    requires |s'.frame.quantizers| == TABLE_BYTES
    requires Apply(0xC0, FramePayload(kind, widthBlocks, heightBlocks), s) == Applied(s')
    requires Apply(0xC4, StandardTables(), s') == Applied(s'')
    ensures var data := front + (Segment(0xC0, FramePayload(kind, widthBlocks, heightBlocks))
                                 + (Segment(0xC4, StandardTables()) + (Segment(0xDA, SCAN_HEADER) + (scan + EOI))));
            ParseFrom(data, |front|, s) == Parsed(s''.frame.(scan := scan))
  {
    hide Segment, FramePayload, StandardTables, Apply, ParseFrom, ScanError;
    var frame := Segment(0xC0, FramePayload(kind, widthBlocks, heightBlocks));
    var tables, header := Segment(0xC4, StandardTables()), Segment(0xDA, SCAN_HEADER);
    var data := front + (frame + (tables + (header + (scan + EOI))));
    Advance(data, front, 0xC0, FramePayload(kind, widthBlocks, heightBlocks), tables + (header + (scan + EOI)), s, s');
    Advance(data, front + frame, 0xC4, StandardTables(), header + (scan + EOI), s', s'');
    assert data == front + frame + tables + header + (scan + EOI);
    ScanRead(front + frame + tables, scan, s'');
  }

  lemma HeaderIsFront(kind: byte, widthBlocks: byte, heightBlocks: byte, quantizers: seq<byte>, restartInterval: u16,
                      scan: seq<byte>)
    requires |quantizers| == TABLE_BYTES
    ensures InterchangeHeader(kind, widthBlocks, heightBlocks, quantizers, restartInterval) + scan + EOI
            == HeaderFront(quantizers, restartInterval)
               + (Segment(0xC0, FramePayload(kind, widthBlocks, heightBlocks))
                  + (Segment(0xC4, StandardTables()) + (Segment(0xDA, SCAN_HEADER) + (scan + EOI))))
  {
    hide Segment, FramePayload, StandardTables, QuantizerPayload, RestartSegment;
  }
}
