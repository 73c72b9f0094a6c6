/**
 The class `RtpJpegDepacketizer` of esphome/components/voip_stack/rtp_jpeg.cpp, over the caller's output buffer and a
 flat cache of quantization tables with a validity bitmap, proved to compute the functions of `JpegReassembly`.
 */
module JpegDepacketizer {
  import opened Machine
  import opened JpegTables
  import opened JpegFormat
  import opened JpegReassembly

  const FIRST_CACHED: byte := 128
  const LAST_CACHED: byte := 254
  const NO_KEY := Key(0, 0, 0, 0, 0, 0)
  const CACHE_BYTES: nat := 127 * TABLE_BYTES

  datatype PushResult = INCOMPLETE | COMPLETE | DROPPED

  /** `1 << k` in one byte. */
  function Bit(k: nat): bv8
    requires k < 8
  {
    if k == 0 then 1 else if k == 1 then 2 else if k == 2 then 4 else if k == 3 then 8
    else if k == 4 then 16 else if k == 5 then 32 else if k == 6 then 64 else 128
  }

  lemma SetBit(v: bv8, i: nat, j: nat)
    requires i < 8 && j < 8
    ensures (v | Bit(i)) & Bit(j) != 0 <==> i == j || v & Bit(j) != 0
  {
    if i != j {
      assert Bit(i) & Bit(j) == 0;
      Disjoint(v, Bit(i), Bit(j));
    } else {
      Absorbs(v, Bit(i));
    }
  }

  lemma Disjoint(v: bv8, b: bv8, c: bv8)
    requires b & c == 0
    ensures (v | b) & c == v & c
  {
  }

  lemma Absorbs(v: bv8, b: bv8)
    ensures (v | b) & b == b
  {
  }

  /** Whether the bitmap marks `q`. */
  predicate Marks(valid: seq<bv8>, q: byte)
    requires FIRST_CACHED <= q <= LAST_CACHED && |valid| == 16
  {
    valid[(q - FIRST_CACHED) / 8] & Bit((q - FIRST_CACHED) % 8) != 0
  }

  function WithMark(valid: seq<bv8>, q: byte): (r: seq<bv8>)
    requires FIRST_CACHED <= q <= LAST_CACHED && |valid| == 16
    ensures |r| == 16
  {
    var i := (q - FIRST_CACHED) / 8;
    valid[i := valid[i] | Bit((q - FIRST_CACHED) % 8)]
  }

  /** Marking `q` marks no other. */
  lemma MarkSets(valid: seq<bv8>, q: byte, p: byte)
    requires FIRST_CACHED <= q <= LAST_CACHED && FIRST_CACHED <= p <= LAST_CACHED && |valid| == 16
    ensures Marks(WithMark(valid, q), p) <==> p == q || Marks(valid, p)
  {
    hide Bit;
    var i, j := q - FIRST_CACHED, p - FIRST_CACHED;
    SplitIndex(i, j);
    SetOneBit(valid, i / 8, i % 8, j / 8, j % 8);
  }

  lemma SplitIndex(i: nat, j: nat)
    ensures i == j <==> i / 8 == j / 8 && i % 8 == j % 8
  {
    assert i == i / 8 * 8 + i % 8 && j == j / 8 * 8 + j % 8;
  }

  lemma SetOneBit(valid: seq<bv8>, i: nat, k: nat, j: nat, l: nat)
    requires i < |valid| && j < |valid| && k < 8 && l < 8
    ensures valid[i := valid[i] | Bit(k)][j] & Bit(l) != 0 <==> (i == j && k == l) || valid[j] & Bit(l) != 0
  {
    hide Bit;
    if i == j {
      SetBit(valid[i], k, l);
    }
  }

  /** Extending a frame does not depend on whether the state already names it. */
  lemma ExtendNamed(d: Depacketizer, a: Assembly, fragment: seq<byte>, marker: bool, capacity: nat)
    ensures Extend(d, a, fragment, marker, capacity) == Extend(d.(assembly := Some(a)), a, fragment, marker, capacity)
  {
  }

  class RtpJpegDepacketizer {
    var active: bool
    /** The fields `timestamp_`, `type_`, `quality_`, `width_blocks_`, `height_blocks_` and `restart_interval_`. */
    var key: Key
    var headerSize: nat
    var scanSize: nat
    var cache: array?<byte>
    var valid: seq<bv8>

    /** What the output buffer holds of the frame under way. */
    ghost var header: seq<byte>
    ghost var scan: seq<byte>
    /** The tables the cache holds, by Q. */
    ghost var tables: map<byte, seq<byte>>

    /** The cache and its bitmap hold exactly `tables`. */
    ghost predicate CacheHolds()
      reads this`cache, this`tables, this`valid, cache
    {
      && |valid| == 16
      && (cache != null ==> cache.Length >= CACHE_BYTES)
      && (forall q :: q in tables ==> FIRST_CACHED <= q <= LAST_CACHED)
      && (forall q :: FIRST_CACHED <= q <= LAST_CACHED ==> (Marks(valid, q) <==> q in tables))
      && (cache == null ==> tables == map[])
      && (forall q :: q in tables && cache != null ==>
            tables[q] == cache[(q - FIRST_CACHED) * TABLE_BYTES..(q - FIRST_CACHED) * TABLE_BYTES + TABLE_BYTES])
    }

    /** The output buffer still holds what was written to it. */
    ghost predicate OutputHolds(output: array<byte>)
      reads this`active, this`headerSize, this`scanSize, this`header, this`scan, output
    {
      && headerSize == |header| && scanSize == |scan|
      && (active ==> headerSize + scanSize <= output.Length && output[..headerSize + scanSize] == header + scan)
    }

    ghost function Value(): Depacketizer
      reads this`active, this`key, this`header, this`scan, this`cache, this`tables
    {
      Depacketizer(if active then Some(Assembly(key, header, scan)) else None, cache != null, tables)
    }

    constructor ()
      ensures CacheHolds() && !active && cache == null
      ensures Value() == Depacketizer(None, false, map[])
    {
      active, key, headerSize, scanSize, cache := false, NO_KEY, 0, 0, null;
      header, scan, tables := [], [], map[];
      valid := seq(16, _ => 0);
    }

    /** `reset`: forget the frame under way. */
    method Reset()
      modifies this`active, this`key, this`headerSize, this`scanSize, this`header, this`scan
      ensures !active && headerSize == scanSize == 0 && header == scan == []
      ensures Value() == Idle(old(Value()))
    {
      active, key, headerSize, scanSize := false, NO_KEY, 0, 0;
      header, scan := [], [];
    }

    /** `reset_session`: also forget the tables learnt. */
    method ResetSession()
      requires |valid| == 16 && (cache != null ==> cache.Length >= CACHE_BYTES)
      modifies this
      ensures CacheHolds() && cache == old(cache) && !active
      ensures Value() == Depacketizer(None, cache != null, map[])
    {
      Reset();
      valid := seq(16, _ => 0);
      tables := map[];
    }

    /** `set_quantization_cache`: a new storage ends the session, the same one changes nothing. */
    method SetQuantizationCache(storage: array?<byte>, capacity: nat)
      requires CacheHolds() && (storage != null ==> capacity <= storage.Length)
      modifies this
      ensures CacheHolds()
      ensures cache == if storage != null && capacity >= CACHE_BYTES then storage else null
      ensures if cache == old(cache) then Value() == old(Value()) else Value() == Depacketizer(None, cache != null, map[])
    {
      var usable := if storage != null && capacity >= CACHE_BYTES then storage else null;
      if usable == cache {
        return;
      }
      cache := usable;
      ResetSession();
    }

    /** `find_cached_quantizers_`. */
    method FindCached(q: byte) returns (found: Option<seq<byte>>)
      requires CacheHolds()
      ensures found == if q in tables then Some(tables[q]) else None
    {
      if cache == null || q < FIRST_CACHED || q > LAST_CACHED {
        return None;
      }
      if !Marks(valid, q) {
        return None;
      }
      var at := (q - FIRST_CACHED) * TABLE_BYTES;
      return Some(cache[at..at + TABLE_BYTES]);
    }

    /** `cache_or_validate_quantizers_`. */
    method CacheOrValidate(q: byte, quantizers: seq<byte>) returns (ok: bool)
      requires CacheHolds() && |quantizers| == TABLE_BYTES
      modifies this`tables, this`valid, cache
      ensures CacheHolds()
      ensures if FIRST_CACHED <= q <= LAST_CACHED then
                var learnt := Learn(old(Value()), q, quantizers);
                ok == learnt.Some? && tables == if ok then learnt.value else old(tables)
              else
                !ok && Value() == old(Value())
    {
      if cache == null || q < FIRST_CACHED || q > LAST_CACHED {
        return false;
      }
      var at := (q - FIRST_CACHED) * TABLE_BYTES;
      if Marks(valid, q) {
        return cache[at..at + TABLE_BYTES] == quantizers;
      }
      Store(q, quantizers);
      return true;
    }

    method Store(q: byte, quantizers: seq<byte>)
      requires CacheHolds() && |quantizers| == TABLE_BYTES && FIRST_CACHED <= q <= LAST_CACHED && cache != null
      modifies this`tables, this`valid, cache
      ensures CacheHolds() && tables == old(tables)[q := quantizers]
    {
      WriteTable(cache, q - FIRST_CACHED, quantizers);
      forall p: byte | FIRST_CACHED <= p <= LAST_CACHED
        ensures Marks(WithMark(valid, q), p) <==> p == q || Marks(valid, p)
      {
        MarkSets(valid, q, p);
      }
      valid := WithMark(valid, q);
      tables := tables[q := quantizers];
      forall p | p in tables
        ensures tables[p] == cache[(p - FIRST_CACHED) * TABLE_BYTES..(p - FIRST_CACHED) * TABLE_BYTES + TABLE_BYTES]
      {
        assert p != q ==> old(tables[p] == cache[(p - FIRST_CACHED) * TABLE_BYTES..(p - FIRST_CACHED) * TABLE_BYTES + TABLE_BYTES]);
      }
    }

    /** The quantizers a first packet calls for: learnt, carried in the packet, or made from Q. */
    method ChooseQuantizers(f: Fields, payload: seq<byte>) returns (choice: Option<(seq<byte>, nat)>)
      requires CacheHolds() && WellFormed(Value()) && f.body <= |payload|
      modifies this`tables, this`valid, cache
      ensures CacheHolds()
      ensures var c := Choose(old(Value()), f, payload);
              choice == (if c.Some? then Some((c.value.quantizers, c.value.cursor)) else None)
              && tables == if c.Some? then c.value.tables else old(tables)
    {
      hide MakeQuantizers, InBand, Learn, CacheHolds;
      var quality, cursor: nat := f.key.quality, f.body;
      if quality < 128 {
        if quality == 0 || quality > 99 {
          return None;
        }
        var made := MakeStaticQuantizers(quality);
        return Some((made, cursor));
      }
      if |payload| < cursor + 4 || payload[cursor] != 0 || payload[cursor + 1] != 0 {
        return None;
      }
      var size := ReadBe16(payload, cursor + 2);
      cursor := cursor + 4;
      if size == 0 {
        var found := FindCached(quality);
        if quality == 255 || found.None? {
          return None;
        }
        return Some((found.value, cursor));
      }
      var carried := CarriedQuantizers(quality, payload, cursor, size);
      if carried.None? {
        return None;
      }
      return Some((carried.value, cursor + size));
    }

    /** Tables in the packet, which must be valid and agree with what was learnt. */
    method CarriedQuantizers(quality: byte, payload: seq<byte>, at: nat, size: nat) returns (r: Option<seq<byte>>)
      requires CacheHolds() && 128 <= quality
      modifies this`tables, this`valid, cache
      ensures CacheHolds()
      ensures var q := InBand(payload, at, size);
              var learnt := if q.Some? then Learn(old(Value()), quality, q.value) else None;
              r == (if learnt.Some? then q else None) && tables == if learnt.Some? then learnt.value else old(tables)
    {
      hide NonZero, CacheHolds;
      if (size != 64 && size != TABLE_BYTES) || |payload| < at + size {
        return None;
      }
      var sent := payload[at..at + size];
      var quantizers := if size == 64 then sent + sent else sent;
      var positive := ValidQuantizers(quantizers);
      if !positive {
        return None;
      }
      if quality != 255 {
        var same := CacheOrValidate(quality, quantizers);
        if !same {
          return None;
        }
      }
      return Some(quantizers);
    }

    /** `start_frame_`: writes the header and takes the packet's fields, or changes nothing. */
    method StartFrame(typeSpecific: byte, k: Key, quantizers: seq<byte>, output: array<byte>, capacity: nat)
      returns (ok: bool)
      requires capacity <= output.Length
      modifies this`active, this`key, this`headerSize, this`scanSize, this`header, this`scan, output
      ensures ok <==>
                && typeSpecific == 0 && Kind(k) <= 1 && k.widthBlocks != 0 && k.heightBlocks != 0
                && |quantizers| == TABLE_BYTES && |HeaderFor(k, quantizers)| <= capacity
      ensures ok ==> OutputHolds(output) && Value() == old(Value()).(assembly := Some(Assembly(k, HeaderFor(k, quantizers), [])))
      ensures !ok ==> unchanged(this)
    {
      hide InterchangeHeader;
      if typeSpecific != 0 || Kind(k) > 1 || k.widthBlocks == 0 || k.heightBlocks == 0 || |quantizers| != TABLE_BYTES {
        return false;
      }
      var written := WriteInterchangeHeader(Kind(k), k.widthBlocks, k.heightBlocks, quantizers, k.restartInterval,
                                            output, capacity);
      if written.None? {
        return false;
      }
      active, key, headerSize, scanSize := true, k, written.value, 0;
      header, scan := output[..headerSize], [];
      assert header + scan == header;
      return true;
    }

    /** The end of `push`: the fragment goes behind what the buffer holds. */
    method AppendFragment(fragment: seq<byte>, marker: bool, output: array<byte>, capacity: nat)
      returns (result: PushResult, outputSize: nat)
      requires active && OutputHolds(output) && capacity <= output.Length
      modifies this`active, this`key, this`headerSize, this`scanSize, this`header, this`scan, output
      ensures OutputHolds(output)
      ensures var d := old(Value()); var r := Extend(d, d.assembly.value, fragment, marker, capacity);
              Value() == r.0 && Reports(r.1, result, outputSize, output)
    {
      var at := headerSize + scanSize;
      if |fragment| == 0 || at + |fragment| + 2 > capacity {
        Reset();
        return DROPPED, 0;
      }
      WriteBytes(output, at, fragment);
      scanSize := scanSize + |fragment|;
      scan := scan + fragment;
      assert output[..at + |fragment|] == header + scan;
      if !marker {
        return INCOMPLETE, 0;
      }
      output[headerSize + scanSize] := 0xFF;
      output[headerSize + scanSize + 1] := 0xD9;
      outputSize := headerSize + scanSize + 2;
      assert output[..outputSize] == header + scan + EOI;
      Reset();
      return COMPLETE, outputSize;
    }

    /** A packet at offset 0: its tables, and a new header in the output; returns where its scan data begins. */
    method BeginFrame(f: Fields, payload: seq<byte>, output: array<byte>, capacity: nat) returns (cursor: Option<nat>)
      requires CacheHolds() && WellFormed(Value()) && f.body <= |payload|
      requires Kind(f.key) <= 1 && f.key.widthBlocks != 0 && f.key.heightBlocks != 0
      requires capacity <= output.Length && output != cache
      modifies this`active, this`key, this`headerSize, this`scanSize, this`header, this`scan, this`tables, this`valid, cache, output
      ensures CacheHolds() && OutputHolds(output) && WellFormed(Value()) && active == cursor.Some?
      ensures var d := old(Value());
              var choice := Choose(d, f, payload);
              && (cursor.Some? ==> choice.Some? && cursor.value == choice.value.cursor <= |payload| && |choice.value.quantizers| == TABLE_BYTES
                                   && |HeaderFor(f.key, choice.value.quantizers)| <= capacity
                                   && Value() == Idle(d).(tables := choice.value.tables,
                                        assembly := Some(Assembly(f.key, HeaderFor(f.key, choice.value.quantizers), []))))
              && (cursor.None? ==> forall p: Packet :: p.payload == payload ==>
                    JpegReassembly.Begin(d, f, p, capacity) == (Value(), Outcome.Dropped))
    {
      hide CacheHolds, Choose, HeaderFor;
      ghost var d := Value();
      ChosenTables(d, f, payload);
      var choice := ChooseQuantizers(f, payload);
      Reset();
      if choice.None? {
        return None;
      }
      var started := StartFrame(0, f.key, choice.value.0, output, capacity);
      if !started {
        return None;
      }
      return Some(choice.value.1);
    }

    /** `push`. */
    method Push(payload: seq<byte>, marker: bool, timestamp: u32, output: array<byte>, capacity: nat)
      returns (result: PushResult, outputSize: nat)
      requires CacheHolds() && OutputHolds(output) && WellFormed(Value())
      requires capacity <= output.Length && output != cache
      modifies this, cache, output
      ensures CacheHolds() && OutputHolds(output) && WellFormed(Value()) && cache == old(cache)
      ensures var r := JpegReassembly.Push(old(Value()), Packet(payload, marker, timestamp), capacity);
              Value() == r.0 && Reports(r.1, result, outputSize, output)
    {
      hide CacheHolds, ReadFields, Choose, HeaderFor, Extend;
      var fields := ReadFields(Packet(payload, marker, timestamp));
      if fields.None? {
        Reset();
        return DROPPED, 0;
      }
      var f := fields.value;
      var cursor := f.body;
      if f.offset == 0 {
        var begun := BeginFrame(f, payload, output, capacity);
        if begun.None? {
          return DROPPED, 0;
        }
        cursor := begun.value;
        ExtendNamed(Value().(assembly := None), Value().assembly.value, payload[cursor..], marker, capacity);
      } else if !active || key != f.key || f.offset != scanSize {
        Reset();
        return DROPPED, 0;
      }
      result, outputSize := AppendFragment(payload[cursor..], marker, output, capacity);
    }
  }

  /** What the caller sees of an outcome: the result, and the frame in the buffer. */
  predicate Reports(o: Outcome, result: PushResult, outputSize: nat, output: array<byte>)
    reads output
  {
    match o
    case Incomplete => result == INCOMPLETE && outputSize == 0
    case Dropped => result == DROPPED && outputSize == 0
    case Complete(frame) => result == COMPLETE && outputSize <= output.Length && output[..outputSize] == frame
  }

  /** `make_quantizers`. */
  method MakeStaticQuantizers(quality: byte) returns (q: seq<byte>)
    requires 1 <= quality <= 99
    ensures q == MakeQuantizers(quality)
  {
    hide BaseQuantizers;
    var scale := if quality < 50 then 5000 / quality else 200 - quality * 2;
    var base := BaseQuantizers();
    q := [];
    for index := 0 to TABLE_BYTES
      invariant |q| == index && q == MakeQuantizers(quality)[..index]
    {
      q := q + [Scaled(base[index], scale)];
    }
  }

  /** `valid_quantizers`. */
  method ValidQuantizers(quantizers: seq<byte>) returns (ok: bool)
    ensures ok == NonZero(quantizers)
  {
    for index := 0 to |quantizers|
      invariant forall i :: 0 <= i < index ==> quantizers[i] != 0
    {
      if quantizers[index] == 0 {
        return false;
      }
    }
    return true;
  }

  /** Writes table `index` of a flat store of tables, and no other. */
  method WriteTable(cache: array<byte>, index: nat, quantizers: seq<byte>)
    requires cache.Length >= CACHE_BYTES && index < 127 && |quantizers| == TABLE_BYTES
    modifies cache
    ensures forall k: nat :: k < 127 ==>
              cache[k * TABLE_BYTES..k * TABLE_BYTES + TABLE_BYTES]
              == if k == index then quantizers else old(cache[k * TABLE_BYTES..k * TABLE_BYTES + TABLE_BYTES])
  {
    forall i | 0 <= i < TABLE_BYTES {
      cache[index * TABLE_BYTES + i] := quantizers[i];
    }
  }
}
