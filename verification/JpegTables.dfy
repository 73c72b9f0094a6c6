/**
 The constant tables of esphome/components/voip_stack/rtp_jpeg.cpp: the base quantizers of RFC 2435 appendix A and
 the four standard Huffman tables of RFC 2435 appendix B, and the walks over them.
 */
module JpegTables {
  import opened Machine

  const TABLE_BYTES: nat := 128

  function BaseQuantizers(): (s: seq<byte>)
    ensures |s| == TABLE_BYTES
  {
    [0x10, 0x0B, 0x0C, 0x0E, 0x0C, 0x0A, 0x10, 0x0E, 0x0D, 0x0E, 0x12, 0x11, 0x10, 0x13, 0x18, 0x28]
    + [0x1A, 0x18, 0x16, 0x16, 0x18, 0x31, 0x23, 0x25, 0x1D, 0x28, 0x3A, 0x33, 0x3D, 0x3C, 0x39, 0x33]
    + [0x38, 0x37, 0x40, 0x48, 0x5C, 0x4E, 0x40, 0x44, 0x57, 0x45, 0x37, 0x38, 0x50, 0x6D, 0x51, 0x57]
    + [0x5F, 0x62, 0x67, 0x68, 0x67, 0x3E, 0x4D, 0x71, 0x79, 0x70, 0x64, 0x78, 0x5C, 0x65, 0x67, 0x63]
    + [0x11, 0x12, 0x12, 0x18, 0x15, 0x18, 0x2F, 0x1A, 0x1A, 0x2F, 0x63, 0x42, 0x38, 0x42, 0x63, 0x63]
    + [0x63, 0x63, 0x63, 0x63, 0x63, 0x63, 0x63, 0x63, 0x63, 0x63, 0x63, 0x63, 0x63, 0x63, 0x63, 0x63]
    + [0x63, 0x63, 0x63, 0x63, 0x63, 0x63, 0x63, 0x63, 0x63, 0x63, 0x63, 0x63, 0x63, 0x63, 0x63, 0x63]
    + [0x63, 0x63, 0x63, 0x63, 0x63, 0x63, 0x63, 0x63, 0x63, 0x63, 0x63, 0x63, 0x63, 0x63, 0x63, 0x63]
  }

  // ---------- The standard Huffman tables: an identifier, sixteen counts, and the values ----------

  function DcLumaCounts(): (s: seq<byte>)
    ensures |s| == 16
  {
    [0, 1, 5, 1, 1, 1, 1, 1, 1, 0, 0, 0, 0, 0, 0, 0]
  }

  function DcChromaCounts(): (s: seq<byte>)
    ensures |s| == 16
  {
    [0, 3, 1, 1, 1, 1, 1, 1, 1, 1, 1, 0, 0, 0, 0, 0]
  }

  function AcLumaCounts(): (s: seq<byte>)
    ensures |s| == 16
  {
    [0, 2, 1, 3, 3, 2, 4, 3, 5, 5, 4, 4, 0, 0, 1, 125]
  }

  function AcChromaCounts(): (s: seq<byte>)
    ensures |s| == 16
  {
    [0, 2, 1, 2, 4, 4, 3, 4, 7, 5, 4, 4, 0, 1, 2, 119]
  }

  function DcValues(): (s: seq<byte>)
    ensures |s| == 12
  {
    [0x00, 0x01, 0x02, 0x03, 0x04, 0x05, 0x06, 0x07, 0x08, 0x09, 0x0A, 0x0B]
  }

  function AcLumaValues(): (s: seq<byte>)
    ensures |s| == 162
  {
    [0x01, 0x02, 0x03, 0x00, 0x04, 0x11, 0x05, 0x12, 0x21, 0x31, 0x41, 0x06, 0x13, 0x51, 0x61, 0x07]
    + [0x22, 0x71, 0x14, 0x32, 0x81, 0x91, 0xA1, 0x08, 0x23, 0x42, 0xB1, 0xC1, 0x15, 0x52, 0xD1, 0xF0]
    + [0x24, 0x33, 0x62, 0x72, 0x82, 0x09, 0x0A, 0x16, 0x17, 0x18, 0x19, 0x1A, 0x25, 0x26, 0x27, 0x28]
    + [0x29, 0x2A, 0x34, 0x35, 0x36, 0x37, 0x38, 0x39, 0x3A, 0x43, 0x44, 0x45, 0x46, 0x47, 0x48, 0x49]
    + [0x4A, 0x53, 0x54, 0x55, 0x56, 0x57, 0x58, 0x59, 0x5A, 0x63, 0x64, 0x65, 0x66, 0x67, 0x68, 0x69]
    + [0x6A, 0x73, 0x74, 0x75, 0x76, 0x77, 0x78, 0x79, 0x7A, 0x83, 0x84, 0x85, 0x86, 0x87, 0x88, 0x89]
    + [0x8A, 0x92, 0x93, 0x94, 0x95, 0x96, 0x97, 0x98, 0x99, 0x9A, 0xA2, 0xA3, 0xA4, 0xA5, 0xA6, 0xA7]
    + [0xA8, 0xA9, 0xAA, 0xB2, 0xB3, 0xB4, 0xB5, 0xB6, 0xB7, 0xB8, 0xB9, 0xBA, 0xC2, 0xC3, 0xC4, 0xC5]
    + [0xC6, 0xC7, 0xC8, 0xC9, 0xCA, 0xD2, 0xD3, 0xD4, 0xD5, 0xD6, 0xD7, 0xD8, 0xD9, 0xDA, 0xE1, 0xE2]
    + [0xE3, 0xE4, 0xE5, 0xE6, 0xE7, 0xE8, 0xE9, 0xEA, 0xF1, 0xF2, 0xF3, 0xF4, 0xF5, 0xF6, 0xF7, 0xF8]
    + [0xF9, 0xFA]
  }

  function AcChromaValues(): (s: seq<byte>)
    ensures |s| == 162
  {
    [0x00, 0x01, 0x02, 0x03, 0x11, 0x04, 0x05, 0x21, 0x31, 0x06, 0x12, 0x41, 0x51, 0x07, 0x61, 0x71]
    + [0x13, 0x22, 0x32, 0x81, 0x08, 0x14, 0x42, 0x91, 0xA1, 0xB1, 0xC1, 0x09, 0x23, 0x33, 0x52, 0xF0]
    + [0x15, 0x62, 0x72, 0xD1, 0x0A, 0x16, 0x24, 0x34, 0xE1, 0x25, 0xF1, 0x17, 0x18, 0x19, 0x1A, 0x26]
    + [0x27, 0x28, 0x29, 0x2A, 0x35, 0x36, 0x37, 0x38, 0x39, 0x3A, 0x43, 0x44, 0x45, 0x46, 0x47, 0x48]
    + [0x49, 0x4A, 0x53, 0x54, 0x55, 0x56, 0x57, 0x58, 0x59, 0x5A, 0x63, 0x64, 0x65, 0x66, 0x67, 0x68]
    + [0x69, 0x6A, 0x73, 0x74, 0x75, 0x76, 0x77, 0x78, 0x79, 0x7A, 0x82, 0x83, 0x84, 0x85, 0x86, 0x87]
    + [0x88, 0x89, 0x8A, 0x92, 0x93, 0x94, 0x95, 0x96, 0x97, 0x98, 0x99, 0x9A, 0xA2, 0xA3, 0xA4, 0xA5]
    + [0xA6, 0xA7, 0xA8, 0xA9, 0xAA, 0xB2, 0xB3, 0xB4, 0xB5, 0xB6, 0xB7, 0xB8, 0xB9, 0xBA, 0xC2, 0xC3]
    + [0xC4, 0xC5, 0xC6, 0xC7, 0xC8, 0xC9, 0xCA, 0xD2, 0xD3, 0xD4, 0xD5, 0xD6, 0xD7, 0xD8, 0xD9, 0xDA]
    + [0xE2, 0xE3, 0xE4, 0xE5, 0xE6, 0xE7, 0xE8, 0xE9, 0xEA, 0xF2, 0xF3, 0xF4, 0xF5, 0xF6, 0xF7, 0xF8]
    + [0xF9, 0xFA]
  }

  function HuffmanTable(id: byte, counts: seq<byte>, values: seq<byte>): (t: seq<byte>)
    requires |counts| == 16
    ensures |t| == 17 + |values| && t[0] == id
  {
    [id] + counts + values
  }

  /** The table with identifier `id`, as it stands in a DHT segment. */
  function StandardTable(id: byte): (t: Option<seq<byte>>)
    ensures t.Some? <==> id == 0x00 || id == 0x01 || id == 0x10 || id == 0x11
    ensures t.Some? ==> |t.value| == 17 + (if id < 0x10 then 12 else 162) && t.value[0] == id
  {
    if id == 0x00 then Some(HuffmanTable(id, DcLumaCounts(), DcValues()))
    else if id == 0x01 then Some(HuffmanTable(id, DcChromaCounts(), DcValues()))
    else if id == 0x10 then Some(HuffmanTable(id, AcLumaCounts(), AcLumaValues()))
    else if id == 0x11 then Some(HuffmanTable(id, AcChromaCounts(), AcChromaValues()))
    else None
  }

  /** The payload of the standard DHT segment: all four tables. */
  function StandardTables(): (s: seq<byte>)
    ensures |s| == 416
  {
    StandardTable(0x00).value + StandardTable(0x01).value + StandardTable(0x10).value + StandardTable(0x11).value
  }

  // ---------- Walking tables by their counts ----------

  /** The sum of `n` counts from `at` on. */
  function SumCounts(s: seq<byte>, at: nat, n: nat): (sum: nat)
    requires at + n <= |s|
  {
    if n == 0 then 0 else SumCounts(s, at, n - 1) + s[at + n - 1]
  }

  lemma {:induction false} SumOfSlice(s: seq<byte>, t: seq<byte>, start: nat, at: nat, n: nat)
    requires start + |t| <= |s| && s[start..start + |t|] == t && at + n <= |t|
    ensures SumCounts(s, start + at, n) == SumCounts(t, at, n)
  {
    if n > 0 {
      SumOfSlice(s, t, start, at, n - 1);
      assert s[start..start + |t|][at + n - 1] == s[start + at + n - 1];
    }
  }

  lemma SumOfFour(s: seq<byte>, at: nat, n: nat)
    requires at + n + 4 <= |s|
    ensures SumCounts(s, at, n + 4)
            == SumCounts(s, at, n) + s[at + n] as int + s[at + n + 1] as int + s[at + n + 2] as int + s[at + n + 3] as int
  {
    assert SumCounts(s, at, n + 4) == SumCounts(s, at, n + 3) + s[at + n + 3];
    assert SumCounts(s, at, n + 2) == SumCounts(s, at, n + 1) + s[at + n + 1];
  }

  lemma SumOfDcLumaCounts()
    ensures SumCounts(DcLumaCounts(), 0, 16) == 12
  {
    SumOfFour(DcLumaCounts(), 0, 0);
    SumOfFour(DcLumaCounts(), 0, 4);
    SumOfFour(DcLumaCounts(), 0, 8);
    SumOfFour(DcLumaCounts(), 0, 12);
  }

  lemma SumOfDcChromaCounts()
    ensures SumCounts(DcChromaCounts(), 0, 16) == 12
  {
    SumOfFour(DcChromaCounts(), 0, 0);
    SumOfFour(DcChromaCounts(), 0, 4);
    SumOfFour(DcChromaCounts(), 0, 8);
    SumOfFour(DcChromaCounts(), 0, 12);
  }

  lemma SumOfAcLumaCounts()
    ensures SumCounts(AcLumaCounts(), 0, 16) == 162
  {
    SumOfFour(AcLumaCounts(), 0, 0);
    SumOfFour(AcLumaCounts(), 0, 4);
    SumOfFour(AcLumaCounts(), 0, 8);
    SumOfFour(AcLumaCounts(), 0, 12);
  }

  lemma SumOfAcChromaCounts()
    ensures SumCounts(AcChromaCounts(), 0, 16) == 162
  {
    SumOfFour(AcChromaCounts(), 0, 0);
    SumOfFour(AcChromaCounts(), 0, 4);
    SumOfFour(AcChromaCounts(), 0, 8);
    SumOfFour(AcChromaCounts(), 0, 12);
  }

  lemma CountsOfTable(id: byte, counts: seq<byte>, values: seq<byte>)
    requires |counts| == 16
    ensures SumCounts(HuffmanTable(id, counts, values), 1, 16) == SumCounts(counts, 0, 16)
  {
    assert HuffmanTable(id, counts, values)[1..17] == counts;
    SumOfSlice(HuffmanTable(id, counts, values), counts, 1, 0, 16);
  }

  /** A standard table is as long as its sixteen counts say. */
  lemma CountsAddUp(id: byte)
    requires StandardTable(id).Some?
    ensures SumCounts(StandardTable(id).value, 1, 16) == |StandardTable(id).value| - 17
  {
    hide HuffmanTable, SumCounts, DcLumaCounts, DcChromaCounts, AcLumaCounts, AcChromaCounts, DcValues, AcLumaValues, AcChromaValues;
    if id == 0x00 {
      SumOfDcLumaCounts();
      CountsOfTable(id, DcLumaCounts(), DcValues());
    } else if id == 0x01 {
      SumOfDcChromaCounts();
      CountsOfTable(id, DcChromaCounts(), DcValues());
    } else if id == 0x10 {
      SumOfAcLumaCounts();
      CountsOfTable(id, AcLumaCounts(), AcLumaValues());
    } else {
      SumOfAcChromaCounts();
      CountsOfTable(id, AcChromaCounts(), AcChromaValues());
    }
  }

  function TableId(k: nat): byte
    requires k < 4
  {
    if k == 0 then 0x00 else if k == 1 then 0x01 else if k == 2 then 0x10 else 0x11
  }

  /** Where the `k`-th table begins in `StandardTables`. */
  function TableStart(k: nat): nat
    requires k <= 4
  {
    if k == 0 then 0 else if k == 1 then 29 else if k == 2 then 58 else if k == 3 then 237 else 416
  }

  lemma TableAt(k: nat)
    requires k < 4
    ensures StandardTable(TableId(k)).Some?
    ensures TableStart(k) + |StandardTable(TableId(k)).value| == TableStart(k + 1) <= |StandardTables()|
    ensures StandardTables()[TableStart(k)..TableStart(k + 1)] == StandardTable(TableId(k)).value
  {
    hide HuffmanTable, DcLumaCounts, DcChromaCounts, AcLumaCounts, AcChromaCounts, DcValues, AcLumaValues, AcChromaValues;
  }

  /** `standard_huffman_table`: walks the standard segment table by table until it meets `id`. */
  method FindStandardTable(id: byte) returns (table: Option<seq<byte>>)
    ensures table == StandardTable(id)
  {
    hide StandardTable, StandardTables;
    var data, offset := StandardTables(), 0;
    ghost var k := 0;
    while offset < |data|
      invariant k <= 4 && offset == TableStart(k)
      invariant forall j :: 0 <= j < k ==> TableId(j) != id
      decreases |data| - offset
    {
      TableAt(k);
      CountsAddUp(TableId(k));
      SumOfSlice(data, StandardTable(TableId(k)).value, TableStart(k), 1, 16);
      var start := offset;
      if offset + 17 > |data| {
        return None;
      }
      assert data[start] == data[start..TableStart(k + 1)][0];
      var currentId := data[offset];
      offset := offset + 1;
      var values := 0;
      for index := 0 to 16
        invariant values == SumCounts(data, offset, index)
      {
        values := values + data[offset + index] as int;
      }
      offset := offset + 16;
      if values == 0 || offset + values > |data| {
        return None;
      }
      offset := offset + values;
      if currentId == id {
        return Some(data[start..offset]);
      }
      k := k + 1;
    }
    assert TableId(0) != id && TableId(1) != id && TableId(2) != id && TableId(3) != id;
    return None;
  }

  /** The identifiers seen once the tables of a segment are consumed: each standard, complete and new. */
  function Consumed(segment: seq<byte>, offset: nat, seen: set<byte>): Option<set<byte>>
    requires offset <= |segment|
    decreases |segment| - offset
  {
    if offset == |segment| then Some(seen)
    else
      var id := segment[offset];
      var table := StandardTable(id);
      if table.Some? && id !in seen && table.value <= segment[offset..]
      then Consumed(segment, offset + |table.value|, seen + {id})
      else None
  }

  /** What the counts of the table at `start` say decides nothing that comparing it with the standard table does not. */
  lemma TableLength(segment: seq<byte>, start: nat, table: seq<byte>)
    requires start < |segment| && StandardTable(segment[start]) == Some(table) && table <= segment[start..]
    ensures start + 17 <= |segment| && SumCounts(segment, start + 1, 16) == |table| - 17 > 0
    ensures start + |table| <= |segment| && segment[start..start + |table|] == table
  {
    hide StandardTable;
    assert segment[start..][..|table|] == segment[start..start + |table|];
    CountsAddUp(segment[start]);
    SumOfSlice(segment, table, start, 1, 16);
  }

  /** `consume_standard_huffman_tables`; the mask bits are the set of identifiers. */
  method ConsumeStandardTables(segment: seq<byte>, seen: set<byte>) returns (result: Option<set<byte>>)
    ensures result == Consumed(segment, 0, seen)
  {
    hide StandardTable;
    var offset, mask := 0, seen;
    while offset < |segment|
      invariant offset <= |segment|
      invariant Consumed(segment, 0, seen) == Consumed(segment, offset, mask)
      decreases |segment| - offset
    {
      var start := offset;
      ghost var expected := StandardTable(segment[start]);
      if expected.Some? && expected.value <= segment[start..] {
        TableLength(segment, start, expected.value);
      }
      if offset + 17 > |segment| {
        return None;
      }
      var id := segment[offset];
      offset := offset + 1;
      if id != 0x00 && id != 0x01 && id != 0x10 && id != 0x11 {
        return None;
      }
      if id in mask {
        return None;
      }
      var values := 0;
      for index := 0 to 16
        invariant values == SumCounts(segment, offset, index)
      {
        values := values + segment[offset + index] as int;
      }
      offset := offset + 16;
      if values == 0 || offset + values > |segment| {
        return None;
      }
      offset := offset + values;
      var standard := FindStandardTable(id);
      if standard.None? || |standard.value| != offset - start || standard.value != segment[start..offset] {
        return None;
      }
      assert segment[start..][..offset - start] == segment[start..offset];
      mask := mask + {id};
    }
    return Some(mask);
  }

  function TablesBefore(k: nat): set<byte>
    requires k <= 4
  {
    if k == 0 then {} else if k == 1 then {0x00} else if k == 2 then {0x00, 0x01}
    else if k == 3 then {0x00, 0x01, 0x10} else {0x00, 0x01, 0x10, 0x11}
  }

  /** The standard segment holds each table once. */
  lemma StandardTablesConsumed()
    ensures Consumed(StandardTables(), 0, {}) == Some({0x00, 0x01, 0x10, 0x11})
  {
    hide StandardTable, StandardTables;
    for k := 4 downto 0
      invariant Consumed(StandardTables(), TableStart(k), TablesBefore(k)) == Some({0x00, 0x01, 0x10, 0x11})
    {
      TableAt(k);
      assert StandardTables()[TableStart(k)] == StandardTables()[TableStart(k)..TableStart(k + 1)][0];
      assert StandardTables()[TableStart(k)..][..TableStart(k + 1) - TableStart(k)]
          == StandardTables()[TableStart(k)..TableStart(k + 1)];
      assert TableId(k) !in TablesBefore(k) && TablesBefore(k + 1) == TablesBefore(k) + {TableId(k)};
    }
  }
}
