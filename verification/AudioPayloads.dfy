/**
 Negotiated RTP payload types and the converters prepared for them: `AudioFormat`
 (esphome/components/voip_stack/sip_types.h), `RtpAudioPayloads` (rtp_audio_payloads.h) and `PcmReceiveConverter`
 (pcm_receive_converter.h). Resampling itself is a foreign call; here it only succeeds or fails to initialise.
 */
module AudioPayloads {
  import opened Machine

  const MAX_FORMATS: nat := 8

  datatype PcmFormat = S16LE | S24LE | S24LE_IN_S32 | S32LE

  datatype Codec = PCM | OPUS

  datatype AudioFormat = AudioFormat(sampleRate: u32, pcmFormat: PcmFormat, channels: byte, frameMs: u16, codec: Codec)

  const DEFAULT_FORMAT := AudioFormat(16000, S16LE, 1, 16, PCM)

  predicate IsValid(f: AudioFormat) {
    && f.sampleRate in {8000, 12000, 16000, 24000, 32000, 44100, 48000}
    && (f.channels == 1 || f.channels == 2)
    && f.frameMs in {10, 16, 20, 32}
    && f.sampleRate * f.frameMs % 1000 == 0
    && (f.codec.OPUS? ==>
          f.sampleRate in {8000, 12000, 16000, 24000, 48000} && f.pcmFormat.S16LE? && f.channels == 1
          && (f.frameMs == 10 || f.frameMs == 20))
  }

  function Decoded(f: AudioFormat): AudioFormat {
    f.(codec := PCM)
  }

  predicate SameDecodedGeometry(a: AudioFormat, b: AudioFormat) {
    IsValid(a) && IsValid(b) && Decoded(a) == Decoded(b)
  }

  /** `pcm_receive_conversion_supported`. */
  predicate Convertible(source: AudioFormat, target: AudioFormat) {
    || source == target
    || (source.codec.PCM? && target.codec.PCM? && source.pcmFormat.S16LE? && target.pcmFormat.S16LE?
        && source.channels == target.channels && source.frameMs == target.frameMs
        && source.sampleRate <= target.sampleRate)
  }

  datatype Entry = Entry(format: AudioFormat, payloadType: byte)

  // ---------- The payload table as a value ----------

  /** The entry of payload type `pt`, the first if there were several. */
  function Lookup(entries: seq<Entry>, pt: byte): (r: Option<AudioFormat>)
    ensures r.Some? ==> Entry(r.value, pt) in entries
    ensures r.None? ==> forall e :: e in entries ==> e.payloadType != pt
  {
    if entries == [] then None
    else if entries[0].payloadType == pt then Some(entries[0].format)
    else
      assert forall e :: e in entries ==> e == entries[0] || e in entries[1..];
      Lookup(entries[1..], pt)
  }

  predicate Distinct(entries: seq<Entry>) {
    forall i, j :: 0 <= i < j < |entries| ==> entries[i].payloadType != entries[j].payloadType
  }

  /** A table that `add` can build. */
  predicate Table(entries: seq<Entry>) {
    && |entries| <= MAX_FORMATS && Distinct(entries)
    && forall i :: 0 <= i < |entries| ==> entries[i].payloadType <= 127 && IsValid(entries[i].format)
  }

  function Added(entries: seq<Entry>, pt: byte, format: AudioFormat): (Option<seq<Entry>>) {
    if pt > 127 || !IsValid(format) then None
    else
      var found := Lookup(entries, pt);
      if found.Some? then if found.value == format then Some(entries) else None
      else if |entries| == MAX_FORMATS then None
      else Some(entries + [Entry(format, pt)])
  }

  /** The map from payload types to formats that a table stands for. */
  ghost function AsMap(entries: seq<Entry>): map<byte, AudioFormat> {
    map pt: byte | Lookup(entries, pt).Some? :: Lookup(entries, pt).value
  }

  class RtpAudioPayloads {
    const entries: array<Entry>
    var count: nat

    ghost predicate Valid()
      reads this, entries
    {
      entries.Length == MAX_FORMATS && count <= MAX_FORMATS && Table(entries[..count])
    }

    ghost function Value(): seq<Entry>
      requires count <= entries.Length
      reads this, entries
    {
      entries[..count]
    }

    constructor ()
      ensures Valid() && Value() == [] && fresh(entries)
    {
      entries := new Entry[MAX_FORMATS](_ => Entry(DEFAULT_FORMAT, 0));
      count := 0;
    }

    /** `find`. */
    method Find(pt: byte) returns (format: Option<AudioFormat>)
      requires Valid()
      ensures format == Lookup(Value(), pt)
    {
      for i := 0 to count
        invariant Lookup(Value(), pt) == Lookup(entries[i..count], pt)
      {
        assert entries[i..count][1..] == entries[i + 1..count];
        if entries[i].payloadType == pt {
          return Some(entries[i].format);
        }
      }
      return None;
    }

    /** `add`. */
    method Add(pt: byte, format: AudioFormat) returns (ok: bool)
      requires Valid()
      modifies this`count, entries
      ensures Valid()
      ensures var added := Added(old(Value()), pt, format);
              ok == added.Some? && Value() == if ok then added.value else old(Value())
    {
      if pt > 127 || !IsValid(format) {
        return false;
      }
      var found := Find(pt);
      if found.Some? {
        return found.value == format;
      }
      if count == MAX_FORMATS {
        return false;
      }
      ghost var before := Value();
      entries[count] := Entry(format, pt);
      count := count + 1;
      assert Value() == before + [Entry(format, pt)];
      return true;
    }

    /** `operator==`. */
    method Equals(other: RtpAudioPayloads) returns (same: bool)
      requires Valid() && other.Valid()
      ensures same <==> AsMap(Value()) == AsMap(other.Value())
    {
      hide Lookup, AsMap;
      SameMapIff(Value(), other.Value());
      if count != other.count {
        return false;
      }
      for i := 0 to count
        invariant forall k :: 0 <= k < i ==> Lookup(other.Value(), entries[k].payloadType) == Some(entries[k].format)
      {
        var format := other.Find(entries[i].payloadType);
        if format.None? || format.value != entries[i].format {
          return false;
        }
      }
      return true;
    }
  }

  // ---------- A table is a map ----------

  lemma {:induction false} LookupAt(entries: seq<Entry>, i: nat)
    requires Distinct(entries) && i < |entries|
    ensures Lookup(entries, entries[i].payloadType) == Some(entries[i].format)
  {
    if i > 0 {
      assert entries[0].payloadType != entries[i].payloadType;
      assert forall j, k :: 0 <= j < k < |entries[1..]| ==>
        entries[1..][j] == entries[j + 1] && entries[1..][k] == entries[k + 1] && entries[j + 1].payloadType != entries[k + 1].payloadType;
      LookupAt(entries[1..], i - 1);
    }
  }

  lemma AddedIsTable(entries: seq<Entry>, pt: byte, format: AudioFormat)
    requires Table(entries)
    ensures var added := Added(entries, pt, format); added.Some? ==> Table(added.value)
  {
    hide Lookup, IsValid, Distinct;
    if Lookup(entries, pt).None? {
      NewIsDistinct(entries, Entry(format, pt));
    }
  }

  /** Adding is map insertion: a new payload type is inserted, a known one only confirmed. */
  lemma AddedIsInsertion(entries: seq<Entry>, pt: byte, format: AudioFormat)
    requires Table(entries)
    ensures var added := Added(entries, pt, format); added.Some? ==> AsMap(added.value) == AsMap(entries)[pt := format]
  {
    hide Lookup, IsValid, Table;
    AppendLooksUp(entries, Entry(format, pt));
  }

  lemma NewIsDistinct(entries: seq<Entry>, e: Entry)
    requires Distinct(entries) && Lookup(entries, e.payloadType).None?
    ensures Distinct(entries + [e])
  {
    hide Lookup;
    forall i | 0 <= i < |entries|
      ensures entries[i].payloadType != e.payloadType
    {
      assert entries[i] in entries;
    }
  }

  lemma {:induction false} AppendLooksUp(entries: seq<Entry>, e: Entry)
    ensures forall pt: byte :: Lookup(entries + [e], pt) ==
              if Lookup(entries, pt).Some? then Lookup(entries, pt)
              else if pt == e.payloadType then Some(e.format) else None
  {
    if entries != [] {
      assert (entries + [e])[1..] == entries[1..] + [e];
      AppendLooksUp(entries[1..], e);
    }
  }

  ghost function Keys(entries: seq<Entry>): set<byte> {
    set i | 0 <= i < |entries| :: entries[i].payloadType
  }

  lemma {:induction false} KeyCount(entries: seq<Entry>)
    requires Distinct(entries)
    ensures |Keys(entries)| == |entries|
  {
    if entries != [] {
      var n := |entries| - 1;
      KeyCount(entries[..n]);
      assert Keys(entries) == Keys(entries[..n]) + {entries[n].payloadType};
    }
  }

  lemma MapKeys(entries: seq<Entry>)
    requires Distinct(entries)
    ensures AsMap(entries).Keys == Keys(entries)
  {
    forall pt: byte | pt in Keys(entries)
      ensures pt in AsMap(entries)
    {
      var i :| 0 <= i < |entries| && entries[i].payloadType == pt;
      LookupAt(entries, i);
    }
    forall pt: byte | pt in AsMap(entries)
      ensures pt in Keys(entries)
    {
      assert Entry(Lookup(entries, pt).value, pt) in entries;
    }
  }

  lemma EveryLookup(entries: seq<Entry>)
    requires Distinct(entries)
    ensures forall k :: 0 <= k < |entries| ==> Lookup(entries, entries[k].payloadType) == Some(entries[k].format)
  {
    hide *;
    forall k | 0 <= k < |entries|
      ensures Lookup(entries, entries[k].payloadType) == Some(entries[k].format)
    {
      LookupAt(entries, k);
    }
  }

  lemma SameMapFinds(a: seq<Entry>, b: seq<Entry>)
    requires Distinct(a) && Distinct(b) && AsMap(a) == AsMap(b)
    ensures |a| == |b| && forall k :: 0 <= k < |a| ==> Lookup(b, a[k].payloadType) == Some(a[k].format)
  {
    hide *;
    KeyCount(a);
    KeyCount(b);
    MapKeys(a);
    MapKeys(b);
    EveryLookup(a);
    forall k | 0 <= k < |a|
      ensures Lookup(b, a[k].payloadType) == Some(a[k].format)
    {
      FoundIsKey(a, a[k].payloadType);
      KeyIsFound(b, a[k].payloadType);
    }
  }

  lemma KeyIsFound(entries: seq<Entry>, pt: byte)
    requires pt in AsMap(entries)
    ensures Lookup(entries, pt) == Some(AsMap(entries)[pt])
  {
  }

  lemma FoundIsKey(entries: seq<Entry>, pt: byte)
    requires Lookup(entries, pt).Some?
    ensures pt in AsMap(entries) && AsMap(entries)[pt] == Lookup(entries, pt).value
  {
  }

  lemma FoundIsSameMap(a: seq<Entry>, b: seq<Entry>)
    requires Distinct(a) && Distinct(b)
    requires |a| == |b| && forall k :: 0 <= k < |a| ==> Lookup(b, a[k].payloadType) == Some(a[k].format)
    ensures AsMap(a) == AsMap(b)
  {
    hide Lookup, Distinct;
    KeyCount(a);
    KeyCount(b);
    MapKeys(a);
    MapKeys(b);
    EveryLookup(a);
    assert Keys(a) <= Keys(b) by {
      forall k | 0 <= k < |a|
        ensures a[k].payloadType in AsMap(b).Keys
      {
        FoundIsKey(b, a[k].payloadType);
      }
    }
    SubsetOfSameSize(Keys(a), Keys(b));
    forall pt | pt in AsMap(a)
      ensures AsMap(b)[pt] == AsMap(a)[pt]
    {
      assert pt in Keys(a);
      var k :| 0 <= k < |a| && a[k].payloadType == pt;
    }
  }

  /** As many entries, each found in the other table with its format, is the same map: `operator==` is symmetric. */
  lemma SameMapIff(a: seq<Entry>, b: seq<Entry>)
    requires Distinct(a) && Distinct(b)
    ensures AsMap(a) == AsMap(b) <==>
              |a| == |b| && forall k :: 0 <= k < |a| ==> Lookup(b, a[k].payloadType) == Some(a[k].format)
  {
    hide *;
    if AsMap(a) == AsMap(b) {
      SameMapFinds(a, b);
    }
    if |a| == |b| && forall k :: 0 <= k < |a| ==> Lookup(b, a[k].payloadType) == Some(a[k].format) {
      FoundIsSameMap(a, b);
    }
  }

  lemma SubsetOfSameSize(x: set<byte>, y: set<byte>)
    requires x <= y && |x| == |y|
    ensures x == y
  {
    if e :| e in y && e !in x {
      assert x <= y - {e};
      SubsetSize(x, y - {e});
    }
  }

  lemma {:induction false} SubsetSize(x: set<byte>, y: set<byte>)
    requires x <= y
    ensures |x| <= |y|
    decreases |x|
  {
    if x != {} {
      var e :| e in x;
      SubsetSize(x - {e}, y - {e});
    }
  }

  // ---------- Converters ----------

  /** The formats that converters exist for, once those of `entries` are there too; `None` if one is unsupported or too many. */
  function Prepared(entries: seq<Entry>, target: AudioFormat, formats: seq<AudioFormat>): Option<seq<AudioFormat>> {
    if entries == [] then Some(formats)
    else
      var source := entries[0].format;
      if source == target then Prepared(entries[1..], target, formats)
      else if !Convertible(source, target) then None
      else if source in formats then Prepared(entries[1..], target, formats)
      else if |formats| == MAX_FORMATS then None
      else Prepared(entries[1..], target, formats + [source])
  }

  class PcmReceiveConverter {
    var formats: seq<AudioFormat>
    var target: AudioFormat

    constructor ()
      ensures formats == []
    {
      formats, target := [], DEFAULT_FORMAT;
    }

    /**
     `prepare_additional`: all of the new converters or none. `budget` says how many allocations and initialisations
     succeed before one fails.
     */
    method PrepareAdditional(payloads: seq<Entry>, wanted: AudioFormat, budget: nat) returns (ok: bool)
      modifies this`formats
      ensures ok ==> wanted == target && Some(formats) == Prepared(payloads, wanted, old(formats))
      ensures !ok ==> formats == old(formats)
      ensures !ok && wanted == target && Prepared(payloads, wanted, old(formats)).Some? ==>
                |Prepared(payloads, wanted, old(formats)).value| > |old(formats)| + budget
    {
      if wanted != target {
        return false;
      }
      var added := formats;
      for i := 0 to |payloads|
        invariant Prepared(payloads, wanted, formats) == Prepared(payloads[i..], wanted, added)
        invariant |formats| <= |added| <= |formats| + budget && formats == old(formats)
      {
        assert payloads[i..][1..] == payloads[i + 1..];
        var source := payloads[i].format;
        if source != wanted {
          if !Convertible(source, wanted) {
            return false;
          }
          if source !in added {
            if |added| == MAX_FORMATS {
              return false;
            }
            if |added| == |formats| + budget {
              PreparedGrows(payloads[i + 1..], wanted, added + [source]);
              return false;
            }
            added := added + [source];
          }
        }
      }
      formats := added;
      return true;
    }

    /** `prepare`. */
    method Prepare(payloads: seq<Entry>, wanted: AudioFormat, budget: nat) returns (ok: bool)
      modifies this
      ensures target == wanted
      ensures ok ==> Some(formats) == Prepared(payloads, wanted, [])
      ensures !ok && Prepared(payloads, wanted, []).Some? ==> |Prepared(payloads, wanted, []).value| > budget
    {
      formats, target := [], wanted;
      ok := PrepareAdditional(payloads, wanted, budget);
    }
  }

  lemma {:induction false} PreparedGrows(entries: seq<Entry>, target: AudioFormat, formats: seq<AudioFormat>)
    ensures var r := Prepared(entries, target, formats); r.Some? ==> |formats| <= |r.value|
    decreases |entries|
  {
    if entries != [] {
      PreparedGrows(entries[1..], target, formats);
      PreparedGrows(entries[1..], target, formats + [entries[0].format]);
    }
  }

  /** Convertible payloads are always prepared: the table holds at most eight, so it cannot overflow. */
  lemma {:induction false} ConvertibleIsPrepared(entries: seq<Entry>, target: AudioFormat, formats: seq<AudioFormat>)
    requires forall i :: 0 <= i < |entries| ==> Convertible(entries[i].format, target)
    requires |formats| + |entries| <= MAX_FORMATS
    ensures Prepared(entries, target, formats).Some?
    decreases |entries|
  {
    if entries != [] {
      ConvertibleIsPrepared(entries[1..], target, formats);
      if |formats| < MAX_FORMATS {
        ConvertibleIsPrepared(entries[1..], target, formats + [entries[0].format]);
      }
    }
  }
}
