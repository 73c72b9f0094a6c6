/**
 The bytes that esphome/components/voip_stack/rtp_jpeg.cpp writes: the interchange header of a rebuilt JPEG frame
 and the RTP/JPEG header of one fragment (RFC 2435 section 3.1).
 */
module JpegFormat {
  import opened Machine
  import opened JpegTables

  /** What RFC 2435 types 0 and 1 can say about a frame; `kind` is 0 for 4:2:2 and 1 for 4:2:0. */
  datatype Frame = Frame(
    scan: seq<byte>,
    quantizers: seq<byte>,
    width: u16,
    height: u16,
    restartInterval: u16,
    kind: byte)

  function Be16(x: u16): (b: seq<byte>)
    ensures |b| == 2
  {
    [x / 0x100, x % 0x100]
  }

  function ReadBe16(data: seq<byte>, at: nat): u16
    requires at + 2 <= |data|
  {
    data[at] as int * 0x100 + data[at + 1] as int
  }

  /** A marker segment: the marker, the length of what follows it, and the payload. */
  function Segment(marker: byte, payload: seq<byte>): (s: seq<byte>)
    requires |payload| + 2 < 0x1_0000
    ensures |s| == |payload| + 4
  {
    [0xFF, marker] + Be16(|payload| + 2) + payload
  }

  const SOI: seq<byte> := [0xFF, 0xD8]
  const EOI: seq<byte> := [0xFF, 0xD9]
  const JFIF: seq<byte> := [0x4A, 0x46, 0x49, 0x46, 0, 1, 2, 0, 0, 1, 0, 1, 0, 0]
  const SCAN_HEADER: seq<byte> := [3, 1, 0x00, 2, 0x11, 3, 0x11, 0x00, 0x3F, 0x00]

  function QuantizerPayload(quantizers: seq<byte>): (p: seq<byte>)
    requires |quantizers| == TABLE_BYTES
    ensures |p| == 130
  {
    [0] + quantizers[..64] + [1] + quantizers[64..]
  }

  function FramePayload(kind: byte, widthBlocks: byte, heightBlocks: byte): (p: seq<byte>)
    ensures |p| == 15
  {
    [8] + Be16(heightBlocks * 8) + Be16(widthBlocks * 8)
    + [3, 1, if kind == 1 then 0x22 else 0x21, 0, 2, 0x11, 1, 3, 0x11, 1]
  }

  function RestartSegment(restartInterval: u16): (s: seq<byte>)
    ensures |s| == if restartInterval != 0 then 6 else 0
  {
    if restartInterval != 0 then Segment(0xDD, Be16(restartInterval)) else []
  }

  /** Everything of a rebuilt frame before its entropy-coded scan. */
  function InterchangeHeader(kind: byte, widthBlocks: byte, heightBlocks: byte, quantizers: seq<byte>,
                             restartInterval: u16): (h: seq<byte>)
    requires |quantizers| == TABLE_BYTES
    ensures |h| == 607 + |RestartSegment(restartInterval)|
  {
    SOI + Segment(0xE0, JFIF) + Segment(0xDB, QuantizerPayload(quantizers)) + RestartSegment(restartInterval)
    + Segment(0xC0, FramePayload(kind, widthBlocks, heightBlocks)) + Segment(0xC4, StandardTables())
    + Segment(0xDA, SCAN_HEADER)
  }

  /** A writer into a buffer it does not own; an append that does not fit writes nothing. */
  class BoundedWriter {
    const data: array<byte>
    const capacity: nat
    var size: nat

    ghost predicate Valid()
      reads this`size
    {
      size <= capacity <= data.Length
    }

    ghost function Written(): seq<byte>
      requires Valid()
      reads this`size, data
    {
      data[..size]
    }

    constructor (data: array<byte>, capacity: nat)
      requires capacity <= data.Length
      ensures Valid() && this.data == data && this.capacity == capacity && Written() == []
    {
      this.data := data;
      this.capacity := capacity;
      size := 0;
    }

    method Append(bytes: seq<byte>) returns (ok: bool)
      requires Valid()
      modifies this`size, data
      ensures Valid()
      ensures ok <==> |old(Written())| + |bytes| <= capacity
      ensures Written() == old(Written()) + if ok then bytes else []
    {
      if size + |bytes| > capacity {
        return false;
      }
      forall i | 0 <= i < |bytes| {
        data[size + i] := bytes[i];
      }
      assert data[..size + |bytes|] == data[..size] + bytes;
      size := size + |bytes|;
      return true;
    }
  }

  /** `write_interchange_header`: all of the header, or failure when it does not fit or cannot be described. */
  method WriteInterchangeHeader(kind: byte, widthBlocks: byte, heightBlocks: byte, quantizers: seq<byte>,
                                restartInterval: u16, output: array<byte>, capacity: nat)
    returns (written: Option<nat>)
    requires capacity <= output.Length
    modifies output
    ensures written.Some? <==>
              && kind <= 1 && widthBlocks != 0 && heightBlocks != 0 && |quantizers| == TABLE_BYTES
              && |InterchangeHeader(kind, widthBlocks, heightBlocks, quantizers, restartInterval)| <= capacity
    ensures written.Some? ==>
              && written.value <= output.Length
              && output[..written.value] == InterchangeHeader(kind, widthBlocks, heightBlocks, quantizers, restartInterval)
  {
    hide StandardTables, StandardTable, Segment, Be16, QuantizerPayload, FramePayload, RestartSegment;
    if kind > 1 || widthBlocks == 0 || heightBlocks == 0 || |quantizers| != TABLE_BYTES {
      return None;
    }
    var out := new BoundedWriter(output, capacity);
    ghost var front := SOI + Segment(0xE0, JFIF) + Segment(0xDB, QuantizerPayload(quantizers));
    var ok := out.Append(SOI + Segment(0xE0, JFIF));
    if !ok { return None; }
    ok := out.Append(Segment(0xDB, QuantizerPayload(quantizers)));
    if !ok { return None; }
    assert out.Written() == front;
    ok := out.Append(RestartSegment(restartInterval));
    if !ok { return None; }
    front := front + RestartSegment(restartInterval);
    assert out.Written() == front;
    ok := out.Append(Segment(0xC0, FramePayload(kind, widthBlocks, heightBlocks)));
    if !ok { return None; }
    front := front + Segment(0xC0, FramePayload(kind, widthBlocks, heightBlocks));
    assert out.Written() == front;
    ok := out.Append(Segment(0xC4, StandardTables()));
    if !ok { return None; }
    front := front + Segment(0xC4, StandardTables());
    assert out.Written() == front;
    ok := out.Append(Segment(0xDA, SCAN_HEADER));
    if !ok { return None; }
    assert out.Written() == InterchangeHeader(kind, widthBlocks, heightBlocks, quantizers, restartInterval);
    return Some(out.size);
  }

  // ---------- The RTP/JPEG header of one fragment ----------

  /** A frame the fragment headers can describe. */
  predicate Describable(frame: Frame) {
    && frame.scan != [] && frame.kind <= 1 && |frame.quantizers| == TABLE_BYTES
    && 0 < frame.width <= 2040 && 0 < frame.height <= 2040
  }

  const MAX_OFFSET: nat := 0xFF_FFFF

  function Blocks(pixels: u16): byte
    requires pixels <= 2040
  {
    (pixels + 7) / 8
  }

  function Be24(x: nat): (b: seq<byte>)
    requires x <= MAX_OFFSET
    ensures |b| == 3
  {
    [x / 0x1_0000, x / 0x100 % 0x100, x % 0x100]
  }

  /** The eight bytes every fragment starts with. */
  function MainHeader(frame: Frame, offset: nat): (h: seq<byte>)
    requires Describable(frame) && offset <= MAX_OFFSET
    ensures |h| == 8
  {
    [0] + Be24(offset)
    + [frame.kind + if frame.restartInterval != 0 then 0x40 else 0, 255, Blocks(frame.width), Blocks(frame.height)]
  }

  /** The restart header of a frame with restart markers: the interval, and no alignment (section 3.1.7). */
  function RestartHeader(restartInterval: u16): (h: seq<byte>)
    ensures |h| == if restartInterval != 0 then 4 else 0
  {
    if restartInterval != 0 then Be16(restartInterval) + [0xFF, 0xFF] else []
  }

  /** The quantization table header, in the first fragment only. */
  function TableHeader(frame: Frame, offset: nat): (h: seq<byte>)
    requires Describable(frame)
    ensures |h| == if offset == 0 then 132 else 0
  {
    if offset == 0 then [0, 0] + Be16(TABLE_BYTES) + frame.quantizers else []
  }

  /** The header of the fragment at `offset`. */
  function FragmentHeader(frame: Frame, offset: nat): (h: seq<byte>)
    requires Describable(frame) && offset <= MAX_OFFSET
    ensures |h| == 8 + (if frame.restartInterval != 0 then 4 else 0) + (if offset == 0 then 132 else 0)
  {
    MainHeader(frame, offset) + RestartHeader(frame.restartInterval) + TableHeader(frame, offset)
  }

  method WriteMainHeader(frame: Frame, offset: nat, output: array<byte>)
    requires Describable(frame) && offset <= MAX_OFFSET && output.Length >= 8
    modifies output
    ensures output[..8] == MainHeader(frame, offset)
    ensures forall i :: 8 <= i < output.Length ==> output[i] == old(output[i])
  {
    output[0] := 0;
    output[1] := offset / 0x1_0000;
    output[2] := offset / 0x100 % 0x100;
    output[3] := offset % 0x100;
    output[4] := frame.kind + if frame.restartInterval != 0 then 0x40 else 0;
    output[5] := 255;
    output[6] := (frame.width + 7) / 8;
    output[7] := (frame.height + 7) / 8;
  }

  method WriteBytes(output: array<byte>, at: nat, bytes: seq<byte>)
    requires at + |bytes| <= output.Length
    modifies output
    ensures output[at..at + |bytes|] == bytes && output[..at] == old(output[..at])
    ensures forall i :: at + |bytes| <= i < output.Length ==> output[i] == old(output[i])
  {
    forall i | 0 <= i < |bytes| {
      output[at + i] := bytes[i];
    }
  }

  /** `build_rtp_jpeg_fragment_header`; returns the header's size, 0 on failure. */
  method BuildFragmentHeader(frame: Frame, offset: nat, output: array<byte>, capacity: nat) returns (size: nat)
    requires capacity <= output.Length && |frame.quantizers| == TABLE_BYTES
    modifies output
    ensures size <= output.Length
    ensures size != 0 <==> Describable(frame) && offset <= MAX_OFFSET && |FragmentHeader(frame, offset)| <= capacity
    ensures size != 0 ==> output[..size] == FragmentHeader(frame, offset)
    ensures forall i :: size <= i < output.Length ==> output[i] == old(output[i])
  {
    hide MainHeader;
    var first := offset == 0;
    var required := 8 + (if frame.restartInterval != 0 then 4 else 0) + if first then 132 else 0;
    if capacity < required || |frame.scan| == 0 || frame.kind > 1 || frame.width == 0 || frame.height == 0
       || frame.width > 2040 || frame.height > 2040 || offset > MAX_OFFSET
    {
      return 0;
    }
    WriteMainHeader(frame, offset, output);
    var cursor := 8;
    if frame.restartInterval != 0 {
      WriteBytes(output, cursor, Be16(frame.restartInterval) + [0xFF, 0xFF]);
      cursor := cursor + 4;
    }
    assert output[..cursor] == MainHeader(frame, offset) + RestartHeader(frame.restartInterval);
    if first {
      WriteBytes(output, cursor, [0, 0] + Be16(TABLE_BYTES) + frame.quantizers);
      cursor := cursor + 132;
    }
    assert output[..cursor] == FragmentHeader(frame, offset);
    return cursor;
  }
}
