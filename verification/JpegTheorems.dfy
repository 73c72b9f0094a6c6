/**
 What the RTP/JPEG reassembler promises under any loss, reordering or duplication: it completes a frame exactly when
 an unbroken run of matching fragments has arrived, and a frame sent in any fragments comes back.
 */
module JpegTheorems {
  import opened Machine
  import opened JpegTables
  import opened JpegFormat
  import opened JpegParser
  import opened JpegReassembly
  import opened JpegRoundTrip

  /** The reassembler after the first `n` packets of `ps`. */
  function StateAt(d: Depacketizer, ps: seq<Packet>, capacity: nat, n: nat): (s: Depacketizer)
    requires WellFormed(d) && n <= |ps|
    ensures WellFormed(s)
  {
    if n == 0 then d else Push(StateAt(d, ps, capacity, n - 1), ps[n - 1], capacity).0
  }

  function OutcomeAt(d: Depacketizer, ps: seq<Packet>, capacity: nat, n: nat): Outcome
    requires WellFormed(d) && n < |ps|
  {
    Push(StateAt(d, ps, capacity, n), ps[n], capacity).1
  }

  // ---------- An unbroken run of fragments, without reference to the reassembler ----------

  /** Where the scan data of packet `j` begins, in a run that starts at `from` with the data of its first packet at `cursor`. */
  function DataAt(ps: seq<Packet>, from: nat, cursor: nat, j: nat): (at: nat)
    requires j < |ps|
    ensures at <= |ps[j].payload|
  {
    if j == from then
      if cursor <= |ps[j].payload| then cursor else |ps[j].payload|
    else if ReadFields(ps[j]).Some? then ReadFields(ps[j]).value.body
    else |ps[j].payload|
  }

  function Fragment(ps: seq<Packet>, from: nat, cursor: nat, j: nat): seq<byte>
    requires j < |ps|
  {
    ps[j].payload[DataAt(ps, from, cursor, j)..]
  }

  /** The fragments of packets `from` to `to - 1`, one behind the other. */
  function Gathered(ps: seq<Packet>, from: nat, cursor: nat, to: nat): seq<byte>
    requires to <= |ps|
  {
    if to <= from then [] else Gathered(ps, from, cursor, to - 1) + Fragment(ps, from, cursor, to - 1)
  }

  /** Packet `j` carries the next fragment of the run. */
  predicate Fits(ps: seq<Packet>, from: nat, cursor: nat, key: Key, j: nat)
    requires j < |ps|
  {
    var fields := ReadFields(ps[j]);
    && fields.Some? && fields.value.key == key && fields.value.offset == |Gathered(ps, from, cursor, j)|
    && Fragment(ps, from, cursor, j) != []
  }

  /** Packets `from` to `to - 1` are the gap-free beginning of one frame, none of them the last. */
  predicate Unbroken(ps: seq<Packet>, from: nat, cursor: nat, key: Key, to: nat)
    requires to <= |ps|
  {
    forall j :: from <= j < to ==> Fits(ps, from, cursor, key, j) && !ps[j].marker
  }

  /** The run of packets `from` to `to` is a whole frame, its tables chosen by a reassembler in state `d`, and has room. */
  ghost predicate WholeFrame(d: Depacketizer, ps: seq<Packet>, capacity: nat, from: nat, to: nat)
    requires WellFormed(d) && from <= to < |ps|
  {
    && ReadFields(ps[from]).Some?
    && Choose(d, ReadFields(ps[from]).value, ps[from].payload).Some?
    && var choice := Choose(d, ReadFields(ps[from]).value, ps[from].payload).value;
       var key := ReadFields(ps[from]).value.key;
       && Unbroken(ps, from, choice.cursor, key, to)
       && Fits(ps, from, choice.cursor, key, to) && ps[to].marker
       && |Rebuilt(d, ps, from, to)| <= capacity
  }

  /** The frame such a run rebuilds. */
  ghost function Rebuilt(d: Depacketizer, ps: seq<Packet>, from: nat, to: nat): seq<byte>
    requires WellFormed(d) && from <= to < |ps|
    requires ReadFields(ps[from]).Some? && Choose(d, ReadFields(ps[from]).value, ps[from].payload).Some?
  {
    var fields := ReadFields(ps[from]).value;
    var choice := Choose(d, fields, ps[from].payload).value;
    ChosenTables(d, fields, ps[from].payload);
    HeaderFor(fields.key, choice.quantizers) + Gathered(ps, from, choice.cursor, to + 1) + EOI
  }

  // ---------- Soundness ----------

  /** The frame under way after `n` packets began at packet `from`. */
  ghost predicate BeganAt(d: Depacketizer, ps: seq<Packet>, capacity: nat, n: nat, from: nat)
    requires WellFormed(d) && from < n <= |ps|
  {
    var before := StateAt(d, ps, capacity, from);
    var s := StateAt(d, ps, capacity, n);
    && s.assembly.Some?
    && ReadFields(ps[from]).Some?
    && Choose(before, ReadFields(ps[from]).value, ps[from].payload).Some?
    && var fields := ReadFields(ps[from]).value;
       var choice := Choose(before, fields, ps[from].payload).value;
       ChosenTables(before, fields, ps[from].payload);
       && s.assembly.value.key == fields.key
       && s.assembly.value.header == HeaderFor(fields.key, choice.quantizers)
       && s.assembly.value.scan == Gathered(ps, from, choice.cursor, n)
       && Unbroken(ps, from, choice.cursor, fields.key, n)
  }

  lemma GatheredOne(ps: seq<Packet>, from: nat, cursor: nat)
    requires from < |ps|
    ensures Gathered(ps, from, cursor, from) == []
    ensures Gathered(ps, from, cursor, from + 1) == Fragment(ps, from, cursor, from)
  {
    hide Fragment;
  }

  // What one push makes of a packet that does not drop the frame.

  lemma FirstPush(d: Depacketizer, p: Packet, capacity: nat)
    requires WellFormed(d) && ReadFields(p).Some? && ReadFields(p).value.offset == 0
    ensures var r, fields := Push(d, p, capacity), ReadFields(p).value;
            && (r.0.assembly.Some? <==> r.1.Incomplete?)
            && (!r.1.Dropped? ==>
                  && Choose(d, fields, p.payload).Some?
                  && var choice := Choose(d, fields, p.payload).value;
                     && |choice.quantizers| == TABLE_BYTES
                     && var header, fragment := HeaderFor(fields.key, choice.quantizers), p.payload[choice.cursor..];
                        && fragment != [] && |header| + |fragment| + 2 <= capacity
                        && (if p.marker then r.1 == Complete(header + fragment + EOI)
                            else r.0.assembly == Some(Assembly(fields.key, header, fragment))))
  {
    hide ReadFields, Choose, HeaderFor;
    var fields := ReadFields(p).value;
    ChosenTables(d, fields, p.payload);
    if Choose(d, fields, p.payload).Some? {
      var choice := Choose(d, fields, p.payload).value;
      var header, fragment: seq<byte> := HeaderFor(fields.key, choice.quantizers), p.payload[choice.cursor..];
      assert header + [] == header && [] + fragment == fragment;
    }
  }

  lemma NextPush(d: Depacketizer, p: Packet, capacity: nat)
    requires WellFormed(d) && (ReadFields(p).Some? ==> ReadFields(p).value.offset != 0)
    ensures var r := Push(d, p, capacity);
            && (r.0.assembly.Some? <==> r.1.Incomplete?)
            && (!r.1.Dropped? ==>
                  && ReadFields(p).Some? && Continues(d, ReadFields(p).value)
                  && var fragment, a := p.payload[ReadFields(p).value.body..], d.assembly.value;
                     && fragment != [] && |a.header| + |a.scan| + |fragment| + 2 <= capacity
                     && (if p.marker then r.1 == Complete(a.header + a.scan + fragment + EOI)
                         else r.0.assembly == Some(a.(scan := a.scan + fragment))))
  {
    hide ReadFields, Begin;
  }

  lemma BeginsHere(d: Depacketizer, ps: seq<Packet>, capacity: nat, from: nat)
    requires WellFormed(d) && from < |ps| && ReadFields(ps[from]).Some? && ReadFields(ps[from]).value.offset == 0
    requires !OutcomeAt(d, ps, capacity, from).Dropped?
    ensures if ps[from].marker then
              && WholeFrame(StateAt(d, ps, capacity, from), ps, capacity, from, from)
              && OutcomeAt(d, ps, capacity, from) == Complete(Rebuilt(StateAt(d, ps, capacity, from), ps, from, from))
            else BeganAt(d, ps, capacity, from + 1, from)
  {
    var before, p := StateAt(d, ps, capacity, from), ps[from];
    FirstPush(before, p, capacity);
    var fields := ReadFields(p).value;
    var choice := Choose(before, fields, p.payload).value;
    GatheredOne(ps, from, choice.cursor);
    assert Fragment(ps, from, choice.cursor, from) == p.payload[choice.cursor..];
    hide ReadFields, Choose, HeaderFor, Push, Fragment, Gathered;
  }

  lemma GoesOn(d: Depacketizer, ps: seq<Packet>, capacity: nat, n: nat, from: nat)
    requires WellFormed(d) && from < n < |ps| && BeganAt(d, ps, capacity, n, from)
    requires ReadFields(ps[n]).Some? ==> ReadFields(ps[n]).value.offset != 0
    requires !OutcomeAt(d, ps, capacity, n).Dropped?
    ensures if ps[n].marker then
              && WholeFrame(StateAt(d, ps, capacity, from), ps, capacity, from, n)
              && OutcomeAt(d, ps, capacity, n) == Complete(Rebuilt(StateAt(d, ps, capacity, from), ps, from, n))
            else BeganAt(d, ps, capacity, n + 1, from)
  {
    hide ReadFields, Choose, HeaderFor, Push, StateAt;
    var before, p := StateAt(d, ps, capacity, n), ps[n];
    NextPush(before, p, capacity);
    var fields := ReadFields(ps[from]).value;
    var choice := Choose(StateAt(d, ps, capacity, from), fields, ps[from].payload).value;
    assert Fragment(ps, from, choice.cursor, n) == p.payload[ReadFields(p).value.body..];
    assert StateAt(d, ps, capacity, n + 1) == Push(before, p, capacity).0 by { StateStep(d, ps, capacity, n); }
  }

  lemma StateStep(d: Depacketizer, ps: seq<Packet>, capacity: nat, n: nat)
    requires WellFormed(d) && n < |ps|
    ensures StateAt(d, ps, capacity, n + 1) == Push(StateAt(d, ps, capacity, n), ps[n], capacity).0
  {
    hide Push;
  }

  /** A frame under way has begun at some packet, and every packet since has fitted. */
  lemma {:induction false} AssemblyBegan(d: Depacketizer, ps: seq<Packet>, capacity: nat, n: nat) returns (from: nat)
    requires WellFormed(d) && d.assembly.None? && n <= |ps| && StateAt(d, ps, capacity, n).assembly.Some?
    ensures from < n && BeganAt(d, ps, capacity, n, from)
  {
    hide ReadFields, Push, BeganAt, WholeFrame, Rebuilt;
    var before, p := StateAt(d, ps, capacity, n - 1), ps[n - 1];
    if ReadFields(p).Some? && ReadFields(p).value.offset == 0 {
      from := n - 1;
      FirstPush(before, p, capacity);
      BeginsHere(d, ps, capacity, from);
    } else {
      NextPush(before, p, capacity);
      from := AssemblyBegan(d, ps, capacity, n - 1);
      GoesOn(d, ps, capacity, n - 1, from);
    }
  }

  /**
   Reassembly is sound. In every run of one session, when packet `to` completes a frame, some earlier packet began
   it at offset 0, every packet since carried the next fragment under the same timestamp, type, Q, size and restart
   interval, and the output is the header for that first packet, the fragments, and an end-of-image marker, within
   the capacity.
   */
  lemma CompleteIsWhole(d: Depacketizer, ps: seq<Packet>, capacity: nat, to: nat) returns (from: nat)
    requires WellFormed(d) && d.assembly.None? && to < |ps| && OutcomeAt(d, ps, capacity, to).Complete?
    ensures from <= to && WholeFrame(StateAt(d, ps, capacity, from), ps, capacity, from, to)
    ensures OutcomeAt(d, ps, capacity, to) == Complete(Rebuilt(StateAt(d, ps, capacity, from), ps, from, to))
  {
    hide ReadFields, Push, BeganAt, WholeFrame, Rebuilt;
    var before, p := StateAt(d, ps, capacity, to), ps[to];
    if ReadFields(p).Some? && ReadFields(p).value.offset == 0 {
      from := to;
      FirstPush(before, p, capacity);
      BeginsHere(d, ps, capacity, from);
    } else {
      NextPush(before, p, capacity);
      from := AssemblyBegan(d, ps, capacity, to);
      GoesOn(d, ps, capacity, to, from);
    }
  }

  // ---------- Completeness ----------

  lemma FirstPushTakes(d: Depacketizer, p: Packet, capacity: nat)
    requires WellFormed(d) && ReadFields(p).Some? && ReadFields(p).value.offset == 0
    requires Choose(d, ReadFields(p).value, p.payload).Some?
    requires var choice := Choose(d, ReadFields(p).value, p.payload).value;
             && |choice.quantizers| == TABLE_BYTES && p.payload[choice.cursor..] != []
             && |HeaderFor(ReadFields(p).value.key, choice.quantizers)| + |p.payload[choice.cursor..]| + 2 <= capacity
    ensures !Push(d, p, capacity).1.Dropped?
  {
    hide ReadFields, Choose, HeaderFor;
  }

  lemma NextPushTakes(d: Depacketizer, p: Packet, capacity: nat)
    requires WellFormed(d) && ReadFields(p).Some? && ReadFields(p).value.offset != 0 && Continues(d, ReadFields(p).value)
    requires p.payload[ReadFields(p).value.body..] != []
    requires |d.assembly.value.header| + |d.assembly.value.scan| + |p.payload[ReadFields(p).value.body..]| + 2 <= capacity
    ensures !Push(d, p, capacity).1.Dropped?
  {
    hide ReadFields, Begin;
  }

  lemma {:induction false} GatheredGrows(ps: seq<Packet>, from: nat, cursor: nat, n: nat, to: nat)
    requires n <= to <= |ps|
    ensures |Gathered(ps, from, cursor, n)| <= |Gathered(ps, from, cursor, to)|
  {
    hide Fragment;
    if n < to {
      GatheredGrows(ps, from, cursor, n, to - 1);
    }
  }

  /** A whole frame leaves room at every packet on the way. */
  lemma WholeFrameHasRoom(first: Depacketizer, ps: seq<Packet>, capacity: nat, from: nat, n: nat, to: nat)
    requires WellFormed(first) && from <= n <= to < |ps| && WholeFrame(first, ps, capacity, from, to)
    ensures var fields := ReadFields(ps[from]).value;
            var choice := Choose(first, fields, ps[from].payload).value;
            && |choice.quantizers| == TABLE_BYTES
            && Fits(ps, from, choice.cursor, fields.key, n)
            && |HeaderFor(fields.key, choice.quantizers)| + |Gathered(ps, from, choice.cursor, n)|
               + |Fragment(ps, from, choice.cursor, n)| + 2 <= capacity
  {
    hide ReadFields, Choose, HeaderFor, Fragment, Fits, Rebuilt, Gathered;
    var fields := ReadFields(ps[from]).value;
    var choice := Choose(first, fields, ps[from].payload).value;
    RebuiltLength(first, ps, from, to);
    GatheredStep(ps, from, choice.cursor, n);
    GatheredGrows(ps, from, choice.cursor, n + 1, to + 1);
  }

  lemma RebuiltLength(first: Depacketizer, ps: seq<Packet>, from: nat, to: nat)
    requires WellFormed(first) && from <= to < |ps|
    requires ReadFields(ps[from]).Some? && Choose(first, ReadFields(ps[from]).value, ps[from].payload).Some?
    ensures var fields := ReadFields(ps[from]).value;
            var choice := Choose(first, fields, ps[from].payload).value;
            && |choice.quantizers| == TABLE_BYTES
            && |Rebuilt(first, ps, from, to)|
               == |HeaderFor(fields.key, choice.quantizers)| + |Gathered(ps, from, choice.cursor, to + 1)| + 2
  {
    ChosenTables(first, ReadFields(ps[from]).value, ps[from].payload);
    hide ReadFields, Choose, HeaderFor, Gathered;
  }

  lemma GatheredStep(ps: seq<Packet>, from: nat, cursor: nat, n: nat)
    requires from <= n < |ps|
    ensures |Gathered(ps, from, cursor, n + 1)| == |Gathered(ps, from, cursor, n)| + |Fragment(ps, from, cursor, n)|
  {
    hide Fragment;
  }

  lemma WholeFrameBegins(d: Depacketizer, ps: seq<Packet>, capacity: nat, from: nat, to: nat)
    requires WellFormed(d) && from <= to < |ps| && WholeFrame(StateAt(d, ps, capacity, from), ps, capacity, from, to)
    ensures !OutcomeAt(d, ps, capacity, from).Dropped?
    ensures ReadFields(ps[from]).Some? && ReadFields(ps[from]).value.offset == 0
  {
    hide ReadFields, Choose, HeaderFor, Push, StateAt, Gathered;
    var first := StateAt(d, ps, capacity, from);
    WholeFrameHasRoom(first, ps, capacity, from, from, to);
    GatheredOne(ps, from, Choose(first, ReadFields(ps[from]).value, ps[from].payload).value.cursor);
    hide WholeFrame, Rebuilt;
    FirstPushTakes(first, ps[from], capacity);
  }

  lemma WholeFrameGoesOn(d: Depacketizer, ps: seq<Packet>, capacity: nat, from: nat, n: nat, to: nat)
    requires WellFormed(d) && from < n <= to < |ps| && BeganAt(d, ps, capacity, n, from)
    requires WholeFrame(StateAt(d, ps, capacity, from), ps, capacity, from, to)
    ensures !OutcomeAt(d, ps, capacity, n).Dropped?
    ensures ReadFields(ps[n]).Some? ==> ReadFields(ps[n]).value.offset != 0
  {
    var first, before, p := StateAt(d, ps, capacity, from), StateAt(d, ps, capacity, n), ps[n];
    hide ReadFields, Choose, HeaderFor, Push, StateAt, Gathered, WholeFrame, Rebuilt;
    var choice := Choose(first, ReadFields(ps[from]).value, ps[from].payload).value;
    WholeFrameHasRoom(first, ps, capacity, from, from, to);
    WholeFrameHasRoom(first, ps, capacity, from, n, to);
    GatheredOne(ps, from, choice.cursor);
    GatheredGrows(ps, from, choice.cursor, from + 1, n);
    assert Fragment(ps, from, choice.cursor, n) == p.payload[ReadFields(p).value.body..];
    NextPushTakes(before, p, capacity);
  }

  /** Every packet of a whole frame but the last is taken in, and the state shows it. */
  lemma {:induction false} WholeFrameArrives(d: Depacketizer, ps: seq<Packet>, capacity: nat, from: nat, n: nat, to: nat)
    requires WellFormed(d) && from < n <= to < |ps|
    requires WholeFrame(StateAt(d, ps, capacity, from), ps, capacity, from, to)
    ensures BeganAt(d, ps, capacity, n, from) && OutcomeAt(d, ps, capacity, n - 1) == Incomplete
    decreases n
  {
    hide StateAt, Push, BeganAt, Rebuilt, ReadFields, Choose, Gathered, Fragment, Fits;
    MarkersOfWholeFrame(d, ps, capacity, from, n, to);
    if n == from + 1 {
      WholeFrameBegins(d, ps, capacity, from, to);
      BeginsHere(d, ps, capacity, from);
      FirstPush(StateAt(d, ps, capacity, from), ps[from], capacity);
    } else {
      WholeFrameArrives(d, ps, capacity, from, n - 1, to);
      WholeFrameGoesOn(d, ps, capacity, from, n - 1, to);
      GoesOn(d, ps, capacity, n - 1, from);
      NextPush(StateAt(d, ps, capacity, n - 1), ps[n - 1], capacity);
    }
  }

  lemma MarkersOfWholeFrame(d: Depacketizer, ps: seq<Packet>, capacity: nat, from: nat, n: nat, to: nat)
    requires WellFormed(d) && from < n <= to < |ps|
    requires WholeFrame(StateAt(d, ps, capacity, from), ps, capacity, from, to)
    ensures !ps[n - 1].marker && ps[to].marker
  {
    hide StateAt, Push, Rebuilt, ReadFields, Choose, Gathered, Fragment;
    var first := StateAt(d, ps, capacity, from);
    var choice := Choose(first, ReadFields(ps[from]).value, ps[from].payload).value;
    assert Fits(ps, from, choice.cursor, ReadFields(ps[from]).value.key, n - 1) && !ps[n - 1].marker;
  }

  /** Reassembly is complete: a whole frame comes out, whatever went before it. */
  lemma WholeIsComplete(d: Depacketizer, ps: seq<Packet>, capacity: nat, from: nat, to: nat)
    requires WellFormed(d) && from <= to < |ps| && WholeFrame(StateAt(d, ps, capacity, from), ps, capacity, from, to)
    ensures OutcomeAt(d, ps, capacity, to) == Complete(Rebuilt(StateAt(d, ps, capacity, from), ps, from, to))
  {
    assert ps[to].marker;
    hide StateAt, Push, BeganAt, Rebuilt, ReadFields, Choose, WholeFrame;
    if from == to {
      WholeFrameBegins(d, ps, capacity, from, to);
      BeginsHere(d, ps, capacity, from);
    } else {
      WholeFrameArrives(d, ps, capacity, from, to, to);
      WholeFrameGoesOn(d, ps, capacity, from, to, to);
      GoesOn(d, ps, capacity, to, from);
    }
  }

  /** A packet completes a frame exactly when it ends a whole one. */
  lemma CompletesIffWhole(d: Depacketizer, ps: seq<Packet>, capacity: nat, to: nat)
    requires WellFormed(d) && d.assembly.None? && to < |ps|
    ensures OutcomeAt(d, ps, capacity, to).Complete?
            <==> exists from: nat :: from <= to && WholeFrame(StateAt(d, ps, capacity, from), ps, capacity, from, to)
  {
    hide StateAt, OutcomeAt, WholeFrame, Rebuilt;
    if OutcomeAt(d, ps, capacity, to).Complete? {
      var from := CompleteIsWhole(d, ps, capacity, to);
    }
    forall from: nat | from <= to && WholeFrame(StateAt(d, ps, capacity, from), ps, capacity, from, to)
      ensures OutcomeAt(d, ps, capacity, to).Complete?
    {
      WholeIsComplete(d, ps, capacity, from, to);
    }
  }

  // ---------- One Q, one set of tables ----------

  lemma PushKeepsTables(d: Depacketizer, p: Packet, capacity: nat)
    requires WellFormed(d)
    ensures forall q :: q in d.tables ==> q in Push(d, p, capacity).0.tables && Push(d, p, capacity).0.tables[q] == d.tables[q]
  {
    hide ReadFields, HeaderFor, MakeQuantizers, InBand;
  }

  lemma {:induction false} TablesStay(d: Depacketizer, ps: seq<Packet>, capacity: nat, m: nat, n: nat)
    requires WellFormed(d) && m <= n <= |ps|
    ensures var before, after := StateAt(d, ps, capacity, m), StateAt(d, ps, capacity, n);
            forall q :: q in before.tables ==> q in after.tables && after.tables[q] == before.tables[q]
    decreases n
  {
    hide Push;
    if m < n {
      TablesStay(d, ps, capacity, m, n - 1);
      PushKeepsTables(StateAt(d, ps, capacity, n - 1), ps[n - 1], capacity);
    }
  }

  /** The tables of the frame that begins at packet `from`. */
  function TablesOf(d: Depacketizer, ps: seq<Packet>, capacity: nat, from: nat): Option<seq<byte>>
    requires WellFormed(d) && from < |ps|
  {
    if ReadFields(ps[from]).None? || ReadFields(ps[from]).value.offset != 0 then None
    else
      var choice := Choose(StateAt(d, ps, capacity, from), ReadFields(ps[from]).value, ps[from].payload);
      if choice.None? then None else Some(choice.value.quantizers)
  }

  lemma TablesLearnt(d: Depacketizer, ps: seq<Packet>, capacity: nat, from: nat)
    requires WellFormed(d) && from < |ps| && TablesOf(d, ps, capacity, from).Some?
    requires 128 <= ReadFields(ps[from]).value.key.quality <= 254
    ensures var q, after := ReadFields(ps[from]).value.key.quality, StateAt(d, ps, capacity, from + 1);
            q in after.tables && after.tables[q] == TablesOf(d, ps, capacity, from).value
  {
    hide ReadFields, HeaderFor, MakeQuantizers, InBand;
    StateStep(d, ps, capacity, from);
  }

  /** Two frames of one session with the same Q in 128..254 carry the same tables. */
  lemma SameQSameTables(d: Depacketizer, ps: seq<Packet>, capacity: nat, m: nat, n: nat)
    requires WellFormed(d) && m <= n < |ps|
    requires TablesOf(d, ps, capacity, m).Some? && TablesOf(d, ps, capacity, n).Some?
    requires ReadFields(ps[m]).value.key.quality == ReadFields(ps[n]).value.key.quality
    requires 128 <= ReadFields(ps[m]).value.key.quality <= 254
    ensures TablesOf(d, ps, capacity, m) == TablesOf(d, ps, capacity, n)
  {
    TablesLearnt(d, ps, capacity, m);
    TablesLearnt(d, ps, capacity, n);
    hide ReadFields, TablesOf, StateAt;
    TablesStay(d, ps, capacity, m + 1, n + 1);
  }
}
