/** The round trip: a parsed frame, fragmented, reassembled and parsed again (RFC 2435 section 3.1). */
module JpegDelivery {
  import opened Machine
  import opened JpegTables
  import opened JpegFormat
  import opened JpegParser
  import opened JpegReassembly
  import opened JpegRoundTrip
  import opened JpegTheorems

  /** The first `n` parts, one behind the other. */
  function Joined(parts: seq<seq<byte>>, n: nat): seq<byte>
    requires n <= |parts|
  {
    if n == 0 then [] else Joined(parts, n - 1) + parts[n - 1]
  }

  /** `parts` cut the frame's scan into non-empty fragments whose offsets fit the 24-bit field. */
  predicate Cuts(frame: Frame, parts: seq<seq<byte>>) {
    && |frame.scan| <= MAX_OFFSET + 1
    && (forall i :: 0 <= i < |parts| ==> parts[i] != [])
    && Joined(parts, |parts|) == frame.scan
  }

  lemma {:induction false} JoinedGrows(parts: seq<seq<byte>>, m: nat, n: nat)
    requires m <= n <= |parts| && forall i :: 0 <= i < |parts| ==> parts[i] != []
    ensures |Joined(parts, m)| + (n - m) <= |Joined(parts, n)|
    decreases n
  {
    if m < n {
      JoinedGrows(parts, m, n - 1);
    }
  }

  /** The packet of fragment `i`: its header, its bytes, and the marker on the last. */
  function PacketOf(frame: Frame, parts: seq<seq<byte>>, timestamp: u32, i: nat): Packet
    requires Describable(frame) && Cuts(frame, parts) && i < |parts|
  {
    JoinedGrows(parts, i, |parts|);
    Packet(FragmentHeader(frame, |Joined(parts, i)|) + parts[i], i == |parts| - 1, timestamp)
  }

  function PacketsOf(frame: Frame, parts: seq<seq<byte>>, timestamp: u32): (ps: seq<Packet>)
    requires Describable(frame) && Cuts(frame, parts)
    ensures |ps| == |parts|
    ensures forall i :: 0 <= i < |parts| ==> ps[i] == PacketOf(frame, parts, timestamp, i)
  {
    seq(|parts|, i requires 0 <= i < |parts| => PacketOf(frame, parts, timestamp, i))
  }

  /** Every header field of the fragments but the offset. */
  function KeyOf(frame: Frame, timestamp: u32): Key
    requires Describable(frame)
  {
    Key(timestamp, frame.kind + if frame.restartInterval != 0 then 0x40 else 0, 255,
        Blocks(frame.width), Blocks(frame.height), frame.restartInterval)
  }

  // ---------- A fragment header is read back ----------

  lemma OffsetReads(offset: nat)
    requires offset <= MAX_OFFSET
    ensures Be24(offset)[0] as int * 0x1_0000 + Be24(offset)[1] as int * 0x100 + Be24(offset)[2] as int == offset
  {
  }

  lemma MainReads(frame: Frame, offset: nat, rest: seq<byte>)
    requires Describable(frame) && offset <= MAX_OFFSET
    ensures var data, h := MainHeader(frame, offset) + rest, MainHeader(frame, offset);
            && data[0] == 0 && data[4] == frame.kind + (if frame.restartInterval != 0 then 0x40 else 0) && data[5] == 255
            && data[6] == Blocks(frame.width) && data[7] == Blocks(frame.height)
            && data[1] as int * 0x1_0000 + data[2] as int * 0x100 + data[3] as int == offset
  {
    OffsetReads(offset);
    hide Be24;
    var data, h := MainHeader(frame, offset) + rest, MainHeader(frame, offset);
    assert h[1] == Be24(offset)[0] && h[2] == Be24(offset)[1] && h[3] == Be24(offset)[2];
    assert forall i :: 0 <= i < 8 ==> data[i] == h[i];
  }

  lemma FieldsAre(data: seq<byte>, frame: Frame, offset: nat, marker: bool, timestamp: u32)
    requires Describable(frame) && |data| >= if frame.restartInterval != 0 then 12 else 8
    requires data[0] == 0 && data[4] == frame.kind + if frame.restartInterval != 0 then 0x40 else 0
    requires data[5] == 255 && data[6] == Blocks(frame.width) && data[7] == Blocks(frame.height)
    requires data[1] as int * 0x1_0000 + data[2] as int * 0x100 + data[3] as int == offset
    requires frame.restartInterval != 0 ==> ReadBe16(data, 8) == frame.restartInterval
    ensures ReadFields(Packet(data, marker, timestamp))
            == Some(Fields(offset, KeyOf(frame, timestamp), if frame.restartInterval != 0 then 12 else 8))
  {
    assert data[4] / 0x40 % 2 == 1 <==> frame.restartInterval != 0;
    hide ReadBe16;
  }

  lemma RestartReads(frame: Frame, offset: nat, part: seq<byte>)
    requires Describable(frame) && offset <= MAX_OFFSET && frame.restartInterval != 0
    ensures ReadBe16(FragmentHeader(frame, offset) + part, 8) == frame.restartInterval
  {
    var restart := RestartHeader(frame.restartInterval);
    var data := FragmentHeader(frame, offset) + part;
    assert data[8] == restart[0] && data[9] == restart[1] by {
      hide MainHeader, TableHeader, RestartHeader;
    }
    hide FragmentHeader;
    Be16Reads(data, 8, frame.restartInterval);
  }

  lemma FieldsRead(frame: Frame, offset: nat, part: seq<byte>, marker: bool, timestamp: u32)
    requires Describable(frame) && offset <= MAX_OFFSET
    ensures ReadFields(Packet(FragmentHeader(frame, offset) + part, marker, timestamp))
            == Some(Fields(offset, KeyOf(frame, timestamp), if frame.restartInterval != 0 then 12 else 8))
  {
    hide MainHeader, RestartHeader, TableHeader, ReadFields;
    var data := FragmentHeader(frame, offset) + part;
    var rest := RestartHeader(frame.restartInterval) + TableHeader(frame, offset) + part;
    assert data == MainHeader(frame, offset) + rest;
    MainReads(frame, offset, rest);
    if frame.restartInterval != 0 {
      RestartReads(frame, offset, part);
    }
    hide FragmentHeader;
    FieldsAre(data, frame, offset, marker, timestamp);
  }

  lemma TablesAreChosen(d: Depacketizer, f: Fields, data: seq<byte>, quantizers: seq<byte>)
    requires f.body + 132 <= |data| && f.key.quality == 255 && |quantizers| == TABLE_BYTES
    requires data[f.body] == 0 && data[f.body + 1] == 0 && ReadBe16(data, f.body + 2) == 128
    requires data[f.body + 4..f.body + 132] == quantizers
    ensures Choose(d, f, data) == if NonZero(quantizers) then Some(Choice(quantizers, f.body + 132, d.tables)) else None
  {
    hide ReadBe16, NonZero, MakeQuantizers;
  }

  /** The first fragment carries the frame's tables, and is taken exactly if none of them has a zero. */
  lemma FirstChooses(d: Depacketizer, frame: Frame, part: seq<byte>, timestamp: u32)
    requires Describable(frame)
    ensures var h := FragmentHeader(frame, 0);
            Choose(d, Fields(0, KeyOf(frame, timestamp), if frame.restartInterval != 0 then 12 else 8), h + part)
            == if NonZero(frame.quantizers) then Some(Choice(frame.quantizers, |h|, d.tables)) else None
  {
    var body := if frame.restartInterval != 0 then 12 else 8;
    var data := FragmentHeader(frame, 0) + part;
    TablePlace(frame, part);
    hide FragmentHeader, Choose, NonZero;
    Be16Reads(data, body + 2, 128);
    TablesAreChosen(d, Fields(0, KeyOf(frame, timestamp), body), data, frame.quantizers);
  }

  lemma TablePlace(frame: Frame, part: seq<byte>)
    requires Describable(frame)
    ensures var data, body := FragmentHeader(frame, 0) + part, if frame.restartInterval != 0 then 12 else 8;
            && data[body] == 0 && data[body + 1] == 0 && data[body + 2] == 0 && data[body + 3] == 128
            && data[body + 4..body + 132] == frame.quantizers
  {
    var data, body := FragmentHeader(frame, 0) + part, if frame.restartInterval != 0 then 12 else 8;
    var table := TableHeader(frame, 0);
    assert data[body..body + 132] == table by {
      hide MainHeader, RestartHeader, TableHeader;
    }
    assert table == [0, 0, 0, 128] + frame.quantizers;
    assert table[4..] == frame.quantizers;
    hide FragmentHeader, TableHeader;
    TableIn(data, body, table);
  }

  lemma TableIn(data: seq<byte>, body: nat, table: seq<byte>)
    requires body + 132 <= |data| && |table| == 132 && data[body..body + 132] == table
    ensures data[body] == table[0] && data[body + 1] == table[1] && data[body + 2] == table[2] && data[body + 3] == table[3]
    ensures data[body + 4..body + 132] == table[4..]
  {
    var slice := data[body..body + 132];
    assert slice[0] == data[body] && slice[1] == data[body + 1] && slice[2] == data[body + 2] && slice[3] == data[body + 3];
    assert data[body + 4..body + 132] == slice[4..];
  }

  // ---------- The fragments are a whole frame ----------

  lemma PacketReads(frame: Frame, parts: seq<seq<byte>>, timestamp: u32, i: nat)
    requires Describable(frame) && Cuts(frame, parts) && i < |parts|
    ensures ReadFields(PacketOf(frame, parts, timestamp, i))
            == Some(Fields(|Joined(parts, i)|, KeyOf(frame, timestamp), if frame.restartInterval != 0 then 12 else 8))
  {
    JoinedGrows(parts, i, |parts|);
    FieldsRead(frame, |Joined(parts, i)|, parts[i], i == |parts| - 1, timestamp);
  }

  lemma FragmentIsPart(frame: Frame, parts: seq<seq<byte>>, timestamp: u32, i: nat)
    requires Describable(frame) && Cuts(frame, parts) && i < |parts|
    ensures Fragment(PacketsOf(frame, parts, timestamp), 0, |FragmentHeader(frame, 0)|, i) == parts[i]
  {
    PacketReads(frame, parts, timestamp, i);
    JoinedGrows(parts, 0, i);
    JoinedGrows(parts, i, |parts|);
    hide ReadFields, Cuts;
    var ps := PacketsOf(frame, parts, timestamp);
    var h := FragmentHeader(frame, |Joined(parts, i)|);
    hide FragmentHeader, PacketsOf;
    assert ps[i].payload == h + parts[i];
    assert DataAt(ps, 0, |FragmentHeader(frame, 0)|, i) == |h|;
    assert (h + parts[i])[|h|..] == parts[i];
  }

  lemma {:induction false} GatheredIsJoined(frame: Frame, parts: seq<seq<byte>>, timestamp: u32, n: nat)
    requires Describable(frame) && Cuts(frame, parts) && n <= |parts|
    ensures Gathered(PacketsOf(frame, parts, timestamp), 0, |FragmentHeader(frame, 0)|, n) == Joined(parts, n)
    decreases n
  {
    hide Cuts, Fragment, PacketsOf, FragmentHeader;
    if n > 0 {
      GatheredIsJoined(frame, parts, timestamp, n - 1);
      FragmentIsPart(frame, parts, timestamp, n - 1);
    }
  }

  lemma PacketFits(frame: Frame, parts: seq<seq<byte>>, timestamp: u32, i: nat)
    requires Describable(frame) && Cuts(frame, parts) && i < |parts|
    ensures Fits(PacketsOf(frame, parts, timestamp), 0, |FragmentHeader(frame, 0)|, KeyOf(frame, timestamp), i)
  {
    PacketReads(frame, parts, timestamp, i);
    FragmentIsPart(frame, parts, timestamp, i);
    GatheredIsJoined(frame, parts, timestamp, i);
    hide ReadFields, Fragment, Gathered, FragmentHeader, PacketOf;
  }

  lemma PacketsUnbroken(frame: Frame, parts: seq<seq<byte>>, timestamp: u32)
    requires Describable(frame) && Cuts(frame, parts) && parts != []
    ensures var ps, h := PacketsOf(frame, parts, timestamp), |FragmentHeader(frame, 0)|;
            && Unbroken(ps, 0, h, KeyOf(frame, timestamp), |ps| - 1)
            && Fits(ps, 0, h, KeyOf(frame, timestamp), |ps| - 1) && ps[|ps| - 1].marker
  {
    hide Cuts, Fits, FragmentHeader;
    forall i | 0 <= i < |parts|
      ensures Fits(PacketsOf(frame, parts, timestamp), 0, |FragmentHeader(frame, 0)|, KeyOf(frame, timestamp), i)
    {
      PacketFits(frame, parts, timestamp, i);
    }
  }

  /** What `frame` looks like once it is reassembled. */
  function Delivered(frame: Frame, timestamp: u32): seq<byte>
    requires Describable(frame)
  {
    HeaderFor(KeyOf(frame, timestamp), frame.quantizers) + frame.scan + EOI
  }

  lemma FirstPacket(d: Depacketizer, frame: Frame, parts: seq<seq<byte>>, timestamp: u32)
    requires WellFormed(d) && Describable(frame) && Cuts(frame, parts) && parts != []
    ensures var p, h := PacketsOf(frame, parts, timestamp)[0], |FragmentHeader(frame, 0)|;
            && ReadFields(p).Some? && ReadFields(p).value.offset == 0 && ReadFields(p).value.key == KeyOf(frame, timestamp)
            && Choose(d, ReadFields(p).value, p.payload)
               == if NonZero(frame.quantizers) then Some(Choice(frame.quantizers, h, d.tables)) else None
  {
    hide Cuts;
    PacketReads(frame, parts, timestamp, 0);
    hide ReadFields, Choose, FragmentHeader;
    FirstChooses(d, frame, parts[0], timestamp);
  }

  lemma FragmentsRebuild(d: Depacketizer, frame: Frame, parts: seq<seq<byte>>, timestamp: u32)
    requires WellFormed(d) && Describable(frame) && Cuts(frame, parts) && parts != []
    requires var p := PacketsOf(frame, parts, timestamp)[0];
             ReadFields(p).Some? && Choose(d, ReadFields(p).value, p.payload).Some?
    ensures NonZero(frame.quantizers)
    ensures Rebuilt(d, PacketsOf(frame, parts, timestamp), 0, |parts| - 1) == Delivered(frame, timestamp)
  {
    FirstPacket(d, frame, parts, timestamp);
    GatheredIsJoined(frame, parts, timestamp, |parts|);
    assert Joined(parts, |parts|) == frame.scan;
    hide ReadFields, Choose, FragmentHeader, Gathered, HeaderFor, KeyOf, NonZero, Cuts, Joined;
    var p := PacketsOf(frame, parts, timestamp)[0];
    hide PacketsOf;
    ChosenTables(d, ReadFields(p).value, p.payload);
  }

  /** The fragments of a frame are a whole frame exactly when its tables have no zero and there is room for it. */
  lemma FragmentsAreWhole(d: Depacketizer, frame: Frame, parts: seq<seq<byte>>, timestamp: u32, capacity: nat)
    requires WellFormed(d) && Describable(frame) && Cuts(frame, parts) && parts != []
    ensures WholeFrame(d, PacketsOf(frame, parts, timestamp), capacity, 0, |parts| - 1)
            <==> NonZero(frame.quantizers) && |Delivered(frame, timestamp)| <= capacity
  {
    FirstPacket(d, frame, parts, timestamp);
    PacketsUnbroken(frame, parts, timestamp);
    hide ReadFields, Choose, Fits, FragmentHeader, Gathered, HeaderFor, KeyOf, NonZero, Cuts, Joined, Unbroken, Rebuilt, Delivered;
    if NonZero(frame.quantizers) {
      FragmentsRebuild(d, frame, parts, timestamp);
    }
  }

  /** A packet at offset 0 makes the frame under way irrelevant. */
  lemma {:induction false} FreshStart(d: Depacketizer, ps: seq<Packet>, capacity: nat, n: nat)
    requires WellFormed(d) && 0 < n <= |ps| && ReadFields(ps[0]).Some? && ReadFields(ps[0]).value.offset == 0
    ensures StateAt(d, ps, capacity, n) == StateAt(Idle(d), ps, capacity, n)
    ensures OutcomeAt(d, ps, capacity, n - 1) == OutcomeAt(Idle(d), ps, capacity, n - 1)
  {
    hide ReadFields, HeaderFor, MakeQuantizers, InBand;
    if n > 1 {
      FreshStart(d, ps, capacity, n - 1);
      hide Push;
    }
  }

  /** Only packet 0 of the fragments is at offset 0. */
  lemma OnlyFirstAtZero(frame: Frame, parts: seq<seq<byte>>, timestamp: u32, i: nat)
    requires Describable(frame) && Cuts(frame, parts) && i < |parts|
    requires var fields := ReadFields(PacketsOf(frame, parts, timestamp)[i]); fields.Some? && fields.value.offset == 0
    ensures i == 0
  {
    PacketReads(frame, parts, timestamp, i);
    JoinedGrows(parts, 0, i);
    hide ReadFields;
  }

  /**
   A frame cut into any fragments, pushed in order into a reassembler in any state, comes out whole with the last
   fragment, exactly when none of its table entries is zero and the output has room.
   */
  lemma DeliveredIff(d: Depacketizer, frame: Frame, parts: seq<seq<byte>>, timestamp: u32, capacity: nat)
    requires WellFormed(d) && Describable(frame) && Cuts(frame, parts) && parts != []
    ensures var outcome := OutcomeAt(d, PacketsOf(frame, parts, timestamp), capacity, |parts| - 1);
            && (outcome.Complete? <==> NonZero(frame.quantizers) && |Delivered(frame, timestamp)| <= capacity)
            && (outcome.Complete? ==> outcome == Complete(Delivered(frame, timestamp)))
  {
    hide NonZero, Delivered, Cuts, PacketsOf, OutcomeAt;
    if NonZero(frame.quantizers) && |Delivered(frame, timestamp)| <= capacity {
      Deliverable(d, frame, parts, timestamp, capacity);
    }
    if OutcomeAt(d, PacketsOf(frame, parts, timestamp), capacity, |parts| - 1).Complete? {
      Undeliverable(d, frame, parts, timestamp, capacity);
    }
  }

  lemma Deliverable(d: Depacketizer, frame: Frame, parts: seq<seq<byte>>, timestamp: u32, capacity: nat)
    requires WellFormed(d) && Describable(frame) && Cuts(frame, parts) && parts != []
    requires NonZero(frame.quantizers) && |Delivered(frame, timestamp)| <= capacity
    ensures OutcomeAt(d, PacketsOf(frame, parts, timestamp), capacity, |parts| - 1) == Complete(Delivered(frame, timestamp))
  {
    var ps, last := PacketsOf(frame, parts, timestamp), |parts| - 1;
    assert StateAt(d, ps, capacity, 0) == d;
    FirstPacket(d, frame, parts, timestamp);
    hide Choose, NonZero, Delivered, WholeFrame, Rebuilt, Cuts, PacketsOf, Push, StateAt, OutcomeAt, ReadFields, FragmentHeader;
    FragmentsAreWhole(d, frame, parts, timestamp, capacity);
    FragmentsRebuild(d, frame, parts, timestamp);
    WholeIsComplete(d, ps, capacity, 0, last);
  }

  lemma UndeliverableIdle(d: Depacketizer, frame: Frame, parts: seq<seq<byte>>, timestamp: u32, capacity: nat)
    requires WellFormed(d) && d.assembly.None? && Describable(frame) && Cuts(frame, parts) && parts != []
    requires OutcomeAt(d, PacketsOf(frame, parts, timestamp), capacity, |parts| - 1).Complete?
    ensures NonZero(frame.quantizers) && |Delivered(frame, timestamp)| <= capacity
  {
    var ps, last := PacketsOf(frame, parts, timestamp), |parts| - 1;
    assert StateAt(d, ps, capacity, 0) == d;
    hide Describable, Choose, NonZero, Delivered, WholeFrame, Rebuilt, Cuts, PacketsOf, Push, StateAt, OutcomeAt, ReadFields, FragmentHeader;
    var from := CompleteIsWhole(d, ps, capacity, last);
    WholeFrameBegins(d, ps, capacity, from, last);
    OnlyFirstAtZero(frame, parts, timestamp, from);
    FragmentsAreWhole(d, frame, parts, timestamp, capacity);
  }

  lemma IdleIsFresh(d: Depacketizer)
    requires WellFormed(d)
    ensures WellFormed(Idle(d)) && Idle(d).assembly.None?
  {
  }

  lemma Undeliverable(d: Depacketizer, frame: Frame, parts: seq<seq<byte>>, timestamp: u32, capacity: nat)
    requires WellFormed(d) && Describable(frame) && Cuts(frame, parts) && parts != []
    requires OutcomeAt(d, PacketsOf(frame, parts, timestamp), capacity, |parts| - 1).Complete?
    ensures NonZero(frame.quantizers) && |Delivered(frame, timestamp)| <= capacity
  {
    hide *;
    assert |parts| != 0;
    FirstPacket(d, frame, parts, timestamp);
    IdleIsFresh(d);
    FreshStart(d, PacketsOf(frame, parts, timestamp), capacity, |parts|);
    UndeliverableIdle(Idle(d), frame, parts, timestamp, capacity);
  }

  /** On the way every other fragment is taken in without completing anything. */
  lemma OthersIncomplete(d: Depacketizer, frame: Frame, parts: seq<seq<byte>>, timestamp: u32, capacity: nat, i: nat)
    requires WellFormed(d) && Describable(frame) && Cuts(frame, parts) && i + 1 < |parts|
    requires NonZero(frame.quantizers) && |Delivered(frame, timestamp)| <= capacity
    ensures OutcomeAt(d, PacketsOf(frame, parts, timestamp), capacity, i) == Incomplete
  {
    var ps := PacketsOf(frame, parts, timestamp);
    assert parts != [] && StateAt(d, ps, capacity, 0) == d;
    hide *;
    FragmentsAreWhole(d, frame, parts, timestamp, capacity);
    WholeFrameArrives(d, ps, capacity, 0, i + 1, |parts| - 1);
  }

  /** The frame with both sides rounded up to a multiple of 8, which is what the 8-pixel block counts can carry. */
  function RoundedUp(frame: Frame): Frame
    requires Describable(frame)
  {
    frame.(width := Blocks(frame.width) * 8, height := Blocks(frame.height) * 8)
  }

  /**
   The round trip. A JPEG file that `parse_jpeg_for_rtp` accepts, sent in any non-empty fragments, is completed by
   the last one exactly when its tables have no zero and it fits; what is completed parses back to the same scan,
   tables, restart interval and type, with the size rounded up to whole blocks.
   */
  lemma RoundTrip(data: seq<byte>, d: Depacketizer, parts: seq<seq<byte>>, timestamp: u32, capacity: nat)
    requires Parse(data).Parsed? && WellFormed(d)
    requires Cuts(Parse(data).frame, parts)
    ensures parts != [] && Describable(Parse(data).frame)
    ensures var frame := Parse(data).frame;
            var outcome := OutcomeAt(d, PacketsOf(frame, parts, timestamp), capacity, |parts| - 1);
            && (outcome.Complete? <==> NonZero(frame.quantizers) && |Delivered(frame, timestamp)| <= capacity)
            && (outcome.Complete? ==> Parse(outcome.frame) == Parsed(RoundedUp(frame)))
  {
    var frame := Parse(data).frame;
    ParsedIsDescribable(data);
    assert parts != [];
    hide Parse, Cuts, PacketsOf, OutcomeAt, StateAt, NonZero;
    DeliveredIff(d, frame, parts, timestamp, capacity);
    RebuiltParses(frame.kind, Blocks(frame.width), Blocks(frame.height), frame.quantizers, frame.restartInterval, frame.scan);
    hide InterchangeHeader;
    assert Kind(KeyOf(frame, timestamp)) == frame.kind;
  }
}
