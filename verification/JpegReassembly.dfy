/**
 What one packet does to an RTP/JPEG reassembler (`RtpJpegDepacketizer::push` of
 esphome/components/voip_stack/rtp_jpeg.cpp), as functions on values. The class in module `JpegDepacketizer` is proved
 to compute them; module `JpegTheorems` proves what they mean.
 */
module JpegReassembly {
  import opened Machine
  import opened JpegTables
  import opened JpegFormat

  datatype Packet = Packet(payload: seq<byte>, marker: bool, timestamp: u32)

  datatype Outcome = Incomplete | Complete(frame: seq<byte>) | Dropped

  /** What every fragment of one frame has in common. */
  datatype Key = Key(
    timestamp: u32,
    rawKind: byte,
    quality: byte,
    widthBlocks: byte,
    heightBlocks: byte,
    restartInterval: u16)

  datatype Assembly = Assembly(key: Key, header: seq<byte>, scan: seq<byte>)

  /** `tables` are the quantization tables learnt in this session, by Q. */
  datatype Depacketizer = Depacketizer(assembly: Option<Assembly>, hasCache: bool, tables: map<byte, seq<byte>>)

  /** The main and restart header of a packet; `body` is where they end. */
  datatype Fields = Fields(offset: nat, key: Key, body: nat)

  function Kind(key: Key): byte {
    if key.rawKind >= 0x40 then key.rawKind - 0x40 else key.rawKind
  }

  function ReadFields(p: Packet): (r: Option<Fields>)
    ensures r.Some? ==> r.value.body <= |p.payload| && Kind(r.value.key) <= 1
    ensures r.Some? ==> r.value.key.widthBlocks != 0 && r.value.key.heightBlocks != 0 && r.value.key.timestamp == p.timestamp
  {
    var data := p.payload;
    if |data| < 8 then None
    else
      var restarts := data[4] / 0x40 % 2 == 1;
      if restarts && (|data| < 12 || ReadBe16(data, 8) == 0) then None
      else
        var kind := if restarts then data[4] - 0x40 else data[4];
        if kind > 1 || data[0] != 0 || data[6] == 0 || data[7] == 0 then None
        else
          Some(Fields(
            data[1] as int * 0x1_0000 + data[2] as int * 0x100 + data[3] as int,
            Key(p.timestamp, data[4], data[5], data[6], data[7], if restarts then ReadBe16(data, 8) else 0),
            if restarts then 12 else 8))
  }

  predicate NonZero(quantizers: seq<byte>) {
    forall i :: 0 <= i < |quantizers| ==> quantizers[i] != 0
  }

  /** The tables of a static Q (RFC 2435 section 4.2). */
  function MakeQuantizers(quality: byte): (q: seq<byte>)
    requires 1 <= quality <= 99
    ensures |q| == TABLE_BYTES && NonZero(q)
  {
    var scale := if quality < 50 then 5000 / quality else 200 - quality * 2;
    var base := BaseQuantizers();
    seq(TABLE_BYTES, i requires 0 <= i < TABLE_BYTES => Scaled(base[i], scale))
  }

  function Scaled(base: byte, scale: int): (q: byte)
    ensures q != 0
  {
    var v := (base * scale + 50) / 100;
    if v < 1 then 1 else if v > 255 then 255 else v
  }

  /** The tables a first packet calls for, where its scan data begins, and the tables learnt. */
  datatype Choice = Choice(quantizers: seq<byte>, cursor: nat, tables: map<byte, seq<byte>>)

  /** A Q in 128..254 keeps its tables for the session (RFC 2435 section 3.1.8). */
  function Learn(d: Depacketizer, quality: byte, quantizers: seq<byte>): (r: Option<map<byte, seq<byte>>>)
    requires quality >= 128
    ensures r.Some? && quality < 255 ==> quality in r.value && r.value[quality] == quantizers
    ensures r.Some? ==> forall q :: q in d.tables ==> q in r.value && r.value[q] == d.tables[q]
  {
    if quality == 255 then Some(d.tables)
    else if !d.hasCache then None
    else if quality in d.tables then
      if d.tables[quality] == quantizers then Some(d.tables) else None
    else Some(d.tables[quality := quantizers])
  }

  /** Tables in the packet: 128 bytes, or 64 that serve for both components. */
  function InBand(data: seq<byte>, at: nat, size: nat): (r: Option<seq<byte>>)
    ensures r.Some? ==> |r.value| == TABLE_BYTES && NonZero(r.value) && at + size <= |data|
  {
    if (size != 64 && size != TABLE_BYTES) || at + size > |data| then None
    else
      var sent := data[at..at + size];
      var quantizers := if size == 64 then sent + sent else sent;
      if NonZero(quantizers) then Some(quantizers) else None
  }

  function Choose(d: Depacketizer, f: Fields, data: seq<byte>): (r: Option<Choice>)
    requires f.body <= |data|
    ensures r.Some? ==> r.value.cursor <= |data|
  {
    var quality := f.key.quality;
    if quality < 128 then
      if quality == 0 || quality > 99 then None else Some(Choice(MakeQuantizers(quality), f.body, d.tables))
    else if |data| < f.body + 4 || data[f.body] != 0 || data[f.body + 1] != 0 then None
    else
      var size := ReadBe16(data, f.body + 2);
      if size == 0 then
        if quality == 255 || quality !in d.tables then None
        else Some(Choice(d.tables[quality], f.body + 4, d.tables))
      else
        var quantizers := InBand(data, f.body + 4, size);
        if quantizers.None? then None
        else
          var tables := Learn(d, quality, quantizers.value);
          if tables.None? then None else Some(Choice(quantizers.value, f.body + 4 + size, tables.value))
  }

  /** Every table learnt is one: 128 bytes. */
  predicate WellFormed(d: Depacketizer) {
    forall q :: q in d.tables ==> |d.tables[q]| == TABLE_BYTES
  }

  function Idle(d: Depacketizer): Depacketizer {
    d.(assembly := None)
  }

  /** The end of `push`: the fragment goes behind what is there. */
  function Extend(d: Depacketizer, a: Assembly, fragment: seq<byte>, marker: bool, capacity: nat): (Depacketizer, Outcome) {
    if fragment == [] || |a.header| + |a.scan| + |fragment| + 2 > capacity then (Idle(d), Dropped)
    else if marker then (Idle(d), Complete(a.header + a.scan + fragment + EOI))
    else (d.(assembly := Some(a.(scan := a.scan + fragment))), Incomplete)
  }

  function HeaderFor(key: Key, quantizers: seq<byte>): seq<byte>
    requires |quantizers| == TABLE_BYTES
  {
    InterchangeHeader(Kind(key), key.widthBlocks, key.heightBlocks, quantizers, key.restartInterval)
  }

  lemma ChosenTables(d: Depacketizer, f: Fields, data: seq<byte>)
    requires f.body <= |data| && WellFormed(d)
    ensures var r := Choose(d, f, data);
            r.Some? ==> |r.value.quantizers| == TABLE_BYTES && WellFormed(d.(tables := r.value.tables))
  {
    hide MakeQuantizers, InBand;
  }

  /** A packet at offset 0 begins a frame. */
  function Begin(d: Depacketizer, f: Fields, p: Packet, capacity: nat): (r: (Depacketizer, Outcome))
    requires WellFormed(d) && f.body <= |p.payload|
    ensures WellFormed(r.0)
  {
    var choice := Choose(d, f, p.payload);
    if choice.None? then (Idle(d), Dropped)
    else
      ChosenTables(d, f, p.payload);
      var learnt := Idle(d).(tables := choice.value.tables);
      var header := HeaderFor(f.key, choice.value.quantizers);
      if |header| > capacity then (learnt, Dropped)
      else Extend(learnt, Assembly(f.key, header, []), p.payload[choice.value.cursor..], p.marker, capacity)
  }

  /** The packet goes on exactly where the frame under way stands. */
  predicate Continues(d: Depacketizer, f: Fields) {
    d.assembly.Some? && d.assembly.value.key == f.key && f.offset == |d.assembly.value.scan|
  }

  function Push(d: Depacketizer, p: Packet, capacity: nat): (r: (Depacketizer, Outcome))
    requires WellFormed(d)
    ensures WellFormed(r.0)
  {
    var fields := ReadFields(p);
    if fields.None? then (Idle(d), Dropped)
    else if fields.value.offset == 0 then Begin(d, fields.value, p, capacity)
    else if !Continues(d, fields.value) then (Idle(d), Dropped)
    else Extend(d, d.assembly.value, p.payload[fields.value.body..], p.marker, capacity)
  }
}
