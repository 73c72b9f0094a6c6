/**
 Choosing codecs from the audio m-line: the rtpmap loop of `learn_remote_rtp_from_sdp_` and what follows it
 (esphome/components/voip_stack/sip_sdp.cpp). SDP is taken after parsing: each rtpmap of the line comes with the local
 formats that match it and the rank of its payload type in the m-line.
 */
module SdpSelection {
  import opened Machine
  import opened AudioPayloads

  /**
   One rtpmap attribute whose payload type the m-line offers. `tx` and `rx` are the local formats that match on the
   wire, if any; `receivePt` is the payload type to receive under: the peer's for an offer, our own for an answer.
   */
  datatype Mapping = Mapping(
    pt: byte,
    rank: nat,
    format: AudioFormat,
    peerCanReceive: bool,
    peerCanSend: bool,
    tx: Option<AudioFormat>,
    rx: Option<AudioFormat>,
    txOffered: bool,
    rxOffered: bool,
    receivePt: byte)

  /** The session's side of the negotiation; `both` says that the media flow is a=sendrecv. */
  datatype Session = Session(unidirectional: bool, directional: bool, both: bool, speaker: bool, opus: bool)

  datatype Choice = Choice(pt: byte, format: AudioFormat)

  datatype Ranked = Ranked(pt: byte, format: AudioFormat, rank: nat)

  datatype Selection = Selection(tx: Option<Ranked>, rx: Option<Choice>, received: seq<Entry>, shared: bool)

  const NOTHING := Selection(None, None, [], false)

  predicate TxOk(m: Mapping) {
    m.peerCanReceive && m.tx.Some? && m.txOffered
  }

  predicate RxOk(m: Mapping) {
    m.peerCanSend && m.rx.Some? && m.rxOffered
  }

  /** The variable `local_rx`: its initial value when no local format was looked up or found. */
  function LocalRx(m: Mapping): AudioFormat {
    if m.peerCanSend && m.rx.Some? then m.rx.value else DEFAULT_FORMAT
  }

  predicate AlternatePcm(s: Session, m: Mapping) {
    s.speaker && LocalRx(m).codec.PCM? && LocalRx(m).pcmFormat.S16LE?
  }

  predicate Eligible(s: Session, m: Mapping) {
    s.unidirectional || s.directional || !s.both || (TxOk(m) && RxOk(m)) || AlternatePcm(s, m)
  }

  predicate TxEligible(s: Session, m: Mapping) {
    TxOk(m) && Eligible(s, m) && (s.unidirectional || s.directional || !s.both || RxOk(m))
  }

  /** A later receive mapping displaces the selected one: a higher S16 rate in the same channel layout. */
  predicate Raises(s: Session, m: Mapping, selected: AudioFormat) {
    && !s.directional && AlternatePcm(s, m)
    && selected.pcmFormat.S16LE? && LocalRx(m).channels == selected.channels
    && LocalRx(m).sampleRate > selected.sampleRate
  }

  /** One round of the loop; `None` when the receive table refuses the mapping. */
  function Considered(s: Session, sel: Selection, m: Mapping): Option<Selection> {
    var takesRx := RxOk(m) && Eligible(s, m);
    var added := if takesRx then Added(sel.received, m.receivePt, LocalRx(m)) else Some(sel.received);
    if added.None? then None
    else
      Some(Selection(
        if TxEligible(s, m) && (sel.tx.None? || m.rank < sel.tx.value.rank) then Some(Ranked(m.pt, m.tx.value, m.rank)) else sel.tx,
        if takesRx && (sel.rx.None? || Raises(s, m, sel.rx.value.format)) then Some(Choice(m.receivePt, LocalRx(m))) else sel.rx,
        added.value,
        sel.shared || (TxOk(m) && RxOk(m))))
  }

  /** The loop over the first `n` mappings; `seen` conflicts, a payload type mapped twice to different formats, reject. */
  function Selected(s: Session, ms: seq<Mapping>, n: nat): Option<Selection>
    requires n <= |ms|
  {
    if n == 0 then Some(NOTHING)
    else
      var before := Selected(s, ms, n - 1);
      if before.None? || Conflicts(ms, n - 1) then None else Considered(s, before.value, ms[n - 1])
  }

  predicate Conflicts(ms: seq<Mapping>, n: nat)
    requires n < |ms|
  {
    exists i :: 0 <= i < n && ms[i].pt == ms[n].pt && ms[i].format != ms[n].format
  }

  method SelectCodecs(s: Session, ms: seq<Mapping>) returns (r: Option<Selection>)
    ensures r == Selected(s, ms, |ms|)
  {
    hide Considered;
    var sel := NOTHING;
    var seen: map<byte, AudioFormat> := map[];
    for n := 0 to |ms|
      invariant Selected(s, ms, n) == Some(sel)
      invariant forall i :: 0 <= i < n ==> ms[i].pt in seen && seen[ms[i].pt] == ms[i].format
      invariant forall pt :: pt in seen ==> exists i :: 0 <= i < n && ms[i].pt == pt
    {
      var m := ms[n];
      if m.pt in seen && seen[m.pt] != m.format {
        var i :| 0 <= i < n && ms[i].pt == m.pt;
        assert Conflicts(ms, n);
        RejectionLasts(s, ms, n + 1, |ms|);
        return None;
      }
      assert !Conflicts(ms, n);
      seen := seen[m.pt := m.format];
      var next := Considered(s, sel, m);
      if next.None? {
        RejectionLasts(s, ms, n + 1, |ms|);
        return None;
      }
      sel := next.value;
    }
    return Some(sel);
  }

  lemma {:induction false} RejectionLasts(s: Session, ms: seq<Mapping>, m: nat, n: nat)
    requires m <= n <= |ms| && Selected(s, ms, m).None?
    ensures Selected(s, ms, n).None?
    decreases n
  {
    hide Considered;
    if m < n {
      RejectionLasts(s, ms, m, n - 1);
    }
  }

  // ---------- After the loop ----------

  predicate SharesWire(a: AudioFormat, b: AudioFormat) {
    && a.codec == b.codec && a.frameMs == b.frameMs
    && (a.codec.OPUS? || (a.sampleRate == b.sampleRate && a.channels == b.channels && a.pcmFormat == b.pcmFormat))
  }

  /** The first receive entry that shares the transmit format's wire encoding takes the selection over. */
  function Shared(received: seq<Entry>, tx: AudioFormat, rx: Choice): Choice {
    if received == [] then rx
    else if SharesWire(received[0].format, tx) then Choice(received[0].payloadType, received[0].format)
    else Shared(received[1..], tx, rx)
  }

  /** Then the highest rate it can be converted to. */
  function Raised(received: seq<Entry>, rx: Choice): Choice {
    if received == [] then rx
    else
      var e := received[0];
      Raised(received[1..], if e.format.sampleRate > rx.format.sampleRate && Convertible(rx.format, e.format)
                            then Choice(e.payloadType, e.format) else rx)
  }

  function FinalRx(s: Session, sel: Selection): Choice
    requires sel.rx.Some?
  {
    if s.speaker && !s.opus && sel.tx.Some? && !s.directional && s.both
    then Raised(sel.received, Shared(sel.received, sel.tx.value.format, sel.rx.value))
    else sel.rx.value
  }

  predicate Usable(s: Session, format: AudioFormat, rx: AudioFormat) {
    || format == rx
    || (s.speaker && !s.directional && Convertible(format, rx))
    || (s.opus && !s.directional && SameDecodedGeometry(format, rx))
  }

  /** The entries kept for receiving: the usable ones, in order. */
  function Accepted(s: Session, received: seq<Entry>, rx: AudioFormat): seq<Entry> {
    if received == [] then []
    else if Usable(s, received[0].format, rx) then [received[0]] + Accepted(s, received[1..], rx)
    else Accepted(s, received[1..], rx)
  }

  // ---------- What the selection promises ----------

  /** Every mapping's own formats are valid, and its payload types are those of RTP. */
  predicate WellFormed(ms: seq<Mapping>) {
    forall i :: 0 <= i < |ms| ==> ms[i].pt <= 127 && ms[i].receivePt <= 127
  }

  /** The transmit choice is an eligible mapping of least rank, and there is one if any mapping is eligible. */
  predicate LeastRank(s: Session, ms: seq<Mapping>, n: nat, tx: Option<Ranked>)
    requires n <= |ms|
  {
    && (tx.Some? ==>
          exists i :: 0 <= i < n && TxEligible(s, ms[i]) && tx.value == Ranked(ms[i].pt, ms[i].tx.value, ms[i].rank))
    && forall i :: 0 <= i < n && TxEligible(s, ms[i]) ==> tx.Some? && tx.value.rank <= ms[i].rank
  }

  lemma {:induction false} TransmitsLeastRank(s: Session, ms: seq<Mapping>, n: nat)
    requires n <= |ms| && Selected(s, ms, n).Some?
    ensures LeastRank(s, ms, n, Selected(s, ms, n).value.tx)
  {
    hide TxEligible, Eligible, RxOk, Added, Raises, Conflicts;
    if n > 0 {
      TransmitsLeastRank(s, ms, n - 1);
    }
  }

  predicate HasChoice(received: seq<Entry>, rx: Choice) {
    Entry(rx.format, rx.pt) in received
  }

  lemma AddedHas(entries: seq<Entry>, pt: byte, format: AudioFormat)
    requires Table(entries)
    ensures var r := Added(entries, pt, format);
            r.Some? ==> Table(r.value) && Entry(format, pt) in r.value && forall e :: e in entries ==> e in r.value
  {
    AddedIsTable(entries, pt, format);
    hide Lookup, Table, IsValid;
  }

  /** The receive table is a table, and it holds the selected receive mapping. */
  lemma {:induction false} ReceiveIsRecorded(s: Session, ms: seq<Mapping>, n: nat)
    requires n <= |ms| && Selected(s, ms, n).Some?
    ensures var sel := Selected(s, ms, n).value; Table(sel.received) && (sel.rx.Some? ==> HasChoice(sel.received, sel.rx.value))
  {
    hide TxEligible, Eligible, RxOk, Added, Raises, Conflicts, Table;
    if n > 0 {
      ReceiveIsRecorded(s, ms, n - 1);
      AddedHas(Selected(s, ms, n - 1).value.received, ms[n - 1].receivePt, LocalRx(ms[n - 1]));
    } else {
      EmptyTable();
    }
  }

  lemma EmptyTable()
    ensures Table([])
  {
  }

  lemma {:induction false} SharedIsRecorded(received: seq<Entry>, all: seq<Entry>, tx: AudioFormat, rx: Choice)
    requires HasChoice(all, rx) && forall e :: e in received ==> e in all
    ensures HasChoice(all, Shared(received, tx, rx))
    decreases |received|
  {
    hide SharesWire;
    if received != [] {
      assert received[0] in received;
      SharedIsRecorded(received[1..], all, tx, rx);
    }
  }

  lemma {:induction false} RaisedIsRecorded(received: seq<Entry>, all: seq<Entry>, rx: Choice)
    requires HasChoice(all, rx) && forall e :: e in received ==> e in all
    ensures HasChoice(all, Raised(received, rx))
    decreases |received|
  {
    hide Convertible;
    if received != [] {
      var e := received[0];
      assert e in received;
      RaisedIsRecorded(received[1..], all, if e.format.sampleRate > rx.format.sampleRate && Convertible(rx.format, e.format)
                                           then Choice(e.payloadType, e.format) else rx);
    }
  }

  /** Accepting keeps order, distinctness and every usable entry, so adding the entries one by one never fails. */
  lemma {:induction false} AcceptedIs(s: Session, received: seq<Entry>, rx: AudioFormat)
    requires Table(received)
    ensures var kept := Accepted(s, received, rx);
            && Table(kept) && |kept| <= |received|
            && forall e :: e in kept <==> e in received && Usable(s, e.format, rx)
    decreases |received|
  {
    hide Usable, IsValid;
    if received != [] {
      TableTail(received);
      AcceptedIs(s, received[1..], rx);
      assert forall e :: e in received <==> e == received[0] || e in received[1..];
      TableCons(received, Accepted(s, received[1..], rx));
    }
  }

  lemma TableTail(entries: seq<Entry>)
    requires Table(entries) && entries != []
    ensures Table(entries[1..])
  {
    hide IsValid;
    assert forall i :: 0 <= i < |entries| - 1 ==> entries[1..][i] == entries[i + 1];
  }

  lemma TableCons(entries: seq<Entry>, tail: seq<Entry>)
    requires Table(entries) && entries != [] && Table(tail) && |tail| < |entries|
    requires forall e :: e in tail ==> e in entries[1..]
    ensures Table([entries[0]] + tail)
  {
    hide IsValid;
    forall i | 0 <= i < |tail|
      ensures tail[i].payloadType != entries[0].payloadType
    {
      assert tail[i] in entries[1..];
    }
  }

  /**
   What negotiation leaves for the receiver: the accepted table maps the selected payload type to the selected format,
   and each of its PCM entries is the decoded sink format or converts to it.
   */
  lemma AcceptedServesTheSink(s: Session, ms: seq<Mapping>)
    requires Selected(s, ms, |ms|).Some? && Selected(s, ms, |ms|).value.rx.Some?
    ensures var sel := Selected(s, ms, |ms|).value;
            var rx := FinalRx(s, sel);
            var kept := Accepted(s, sel.received, rx.format);
            && Table(kept) && Lookup(kept, rx.pt) == Some(rx.format)
            && forall e :: e in kept && e.format.codec.PCM? ==> Convertible(e.format, Decoded(rx.format))
  {
    var sel := Selected(s, ms, |ms|).value;
    ReceiveIsRecorded(s, ms, |ms|);
    if sel.tx.Some? {
      SharedIsRecorded(sel.received, sel.received, sel.tx.value.format, sel.rx.value);
      RaisedIsRecorded(sel.received, sel.received, Shared(sel.received, sel.tx.value.format, sel.rx.value));
    }
    var rx := FinalRx(s, sel);
    assert HasChoice(sel.received, rx);
    hide Selected, Table, Lookup, FinalRx;
    AcceptedIs(s, sel.received, rx.format);
    var kept := Accepted(s, sel.received, rx.format);
    assert Entry(rx.format, rx.pt) in kept;
    var i :| 0 <= i < |kept| && kept[i] == Entry(rx.format, rx.pt);
    assert Distinct(kept) by {
      TableIsDistinct(kept);
    }
    LookupAt(kept, i);
    hide Accepted;
  }

  lemma TableIsDistinct(entries: seq<Entry>)
    requires Table(entries)
    ensures Distinct(entries) && |entries| <= MAX_FORMATS
  {
  }

  function PcmOnly(entries: seq<Entry>): (r: seq<Entry>)
    ensures |r| <= |entries|
    ensures forall e :: e in r <==> e in entries && e.format.codec.PCM?
  {
    if entries == [] then []
    else
      assert forall e :: e in entries <==> e == entries[0] || e in entries[1..];
      (if entries[0].format.codec.PCM? then [entries[0]] else []) + PcmOnly(entries[1..])
  }

  /** So the converters for what was negotiated can always be prepared, but for a failed allocation. */
  lemma NegotiatedIsPrepared(s: Session, ms: seq<Mapping>)
    requires Selected(s, ms, |ms|).Some? && Selected(s, ms, |ms|).value.rx.Some?
    ensures var sel := Selected(s, ms, |ms|).value;
            var rx := FinalRx(s, sel);
            Prepared(PcmOnly(Accepted(s, sel.received, rx.format)), Decoded(rx.format), []).Some?
  {
    AcceptedServesTheSink(s, ms);
    hide Selected, Accepted, Table, Lookup, FinalRx, Convertible;
    var sel := Selected(s, ms, |ms|).value;
    var rx := FinalRx(s, sel);
    var kept := Accepted(s, sel.received, rx.format);
    TableIsDistinct(kept);
    var pcm := PcmOnly(kept);
    forall i | 0 <= i < |pcm|
      ensures Convertible(pcm[i].format, Decoded(rx.format))
    {
      assert pcm[i] in pcm;
    }
    ConvertibleIsPrepared(pcm, Decoded(rx.format), []);
  }

  /** The mappings answer an offer: what is received under is the peer's own payload type. */
  predicate OfOffer(ms: seq<Mapping>) {
    forall i :: 0 <= i < |ms| ==> ms[i].receivePt == ms[i].pt
  }

  predicate Offered(ms: seq<Mapping>, pt: byte) {
    exists i :: 0 <= i < |ms| && ms[i].pt == pt
  }

  /** Answering an offer, every payload type received under was offered. */
  lemma {:induction false} ReceivesOnlyOffered(s: Session, ms: seq<Mapping>, n: nat)
    requires n <= |ms| && OfOffer(ms) && Selected(s, ms, n).Some?
    ensures forall e :: e in Selected(s, ms, n).value.received ==> Offered(ms, e.payloadType)
  {
    hide TxEligible, Eligible, RxOk, Raises, Conflicts, Lookup, IsValid;
    if n > 0 {
      ReceivesOnlyOffered(s, ms, n - 1);
      assert ms[n - 1].pt == ms[n - 1].receivePt && Offered(ms, ms[n - 1].pt);
    }
  }

  // ---------- What is refused ----------

  /** `disabled_audio_format`. */
  const DISABLED_FORMAT := AudioFormat(0, S16LE, 0, 0, PCM)

  /** What else the m-line says, and which directions the session has formats for. */
  datatype Line = Line(port: u16, ip: u32, localTx: bool, localRx: bool, peerReceives: bool, peerSends: bool)

  predicate WantsTx(line: Line) {
    line.localTx && line.peerReceives
  }

  predicate WantsRx(line: Line) {
    line.localRx && line.peerSends
  }

  /** The rejections behind the loop, up to the choice of what is played out. */
  predicate Refuses(s: Session, line: Line, sel: Selection) {
    || line.port == 0 || line.ip == 0 || (!WantsTx(line) && !WantsRx(line))
    || (WantsTx(line) && sel.tx.None?) || (WantsRx(line) && sel.rx.None?)
    || (WantsTx(line) && WantsRx(line) && !s.directional && s.both && !sel.shared)
  }

  /** Both directions run at one packet time. */
  predicate PacketTimesAgree(s: Session, sel: Selection) {
    sel.tx.Some? && sel.rx.Some? ==> sel.tx.value.format.frameMs == FinalRx(s, sel).format.frameMs
  }

  /** What `learn_remote_rtp_from_sdp_` leaves: the choices, and the table to receive under. */
  datatype Learnt = Learnt(tx: Option<Ranked>, rx: Option<Choice>, received: seq<Entry>)

  function LearntFrom(s: Session, line: Line, ms: seq<Mapping>): Option<Learnt> {
    var sel := Selected(s, ms, |ms|);
    if sel.None? || Refuses(s, line, sel.value) || !PacketTimesAgree(s, sel.value) then None
    else
      var rx := if sel.value.rx.Some? then FinalRx(s, sel.value) else Choice(0, DISABLED_FORMAT);
      Some(Learnt(sel.value.tx, if sel.value.rx.Some? then Some(rx) else None, Accepted(s, sel.value.received, rx.format)))
  }

  /** `learn_remote_rtp_from_sdp_` behind the parsing of the lines. */
  method LearnRemoteRtp(s: Session, line: Line, ms: seq<Mapping>) returns (r: Option<Learnt>)
    ensures r == LearntFrom(s, line, ms)
  {
    hide Selected, FinalRx, Accepted;
    var selected := SelectCodecs(s, ms);
    if selected.None? {
      return None;
    }
    var sel := selected.value;
    var wantTx, wantRx := line.localTx && line.peerReceives, line.localRx && line.peerSends;
    if line.port == 0 || line.ip == 0 || (!wantTx && !wantRx) || (wantTx && sel.tx.None?) || (wantRx && sel.rx.None?)
       || (wantTx && wantRx && !s.directional && s.both && !sel.shared) {
      return None;
    }
    var rx := Choice(0, DISABLED_FORMAT);
    if sel.rx.Some? {
      rx := FinalRx(s, sel);
    }
    if sel.tx.Some? && sel.rx.Some? && sel.tx.value.format.frameMs != rx.format.frameMs {
      return None;
    }
    var received := Accepted(s, sel.received, rx.format);
    return Some(Learnt(sel.tx, if sel.rx.Some? then Some(rx) else None, received));
  }

  /** Some of the first `n` mappings can be received under. */
  predicate CanReceive(s: Session, ms: seq<Mapping>, n: nat)
    requires n <= |ms|
  {
    exists i :: 0 <= i < n && RxOk(ms[i]) && Eligible(s, ms[i])
  }

  predicate CanTransmit(s: Session, ms: seq<Mapping>, n: nat)
    requires n <= |ms|
  {
    exists i :: 0 <= i < n && TxEligible(s, ms[i])
  }

  /** One mapping serves both directions. */
  predicate ServesBoth(ms: seq<Mapping>, n: nat)
    requires n <= |ms|
  {
    exists i :: 0 <= i < n && TxOk(ms[i]) && RxOk(ms[i])
  }

  lemma {:induction false} SelectionIsThere(s: Session, ms: seq<Mapping>, n: nat)
    requires n <= |ms| && Selected(s, ms, n).Some?
    ensures Selected(s, ms, n).value.rx.Some? <==> CanReceive(s, ms, n)
    ensures Selected(s, ms, n).value.shared <==> ServesBoth(ms, n)
  {
    hide TxEligible, Eligible, TxOk, RxOk, Added, Raises, Conflicts;
    if n > 0 {
      SelectionIsThere(s, ms, n - 1);
      assert CanReceive(s, ms, n) <==> CanReceive(s, ms, n - 1) || (RxOk(ms[n - 1]) && Eligible(s, ms[n - 1]));
      assert ServesBoth(ms, n) <==> ServesBoth(ms, n - 1) || (TxOk(ms[n - 1]) && RxOk(ms[n - 1]));
    }
  }

  /**
   An audio line whose mappings do not conflict is refused if and only if it names no port or address, no direction is
   wanted, a wanted direction has no eligible mapping, both are wanted of one sendrecv line but no mapping serves both,
   or the two choices differ in their packet times.
   */
  lemma RefusedIff(s: Session, line: Line, ms: seq<Mapping>)
    requires Selected(s, ms, |ms|).Some?
    ensures LearntFrom(s, line, ms).None? <==>
              || line.port == 0 || line.ip == 0 || (!WantsTx(line) && !WantsRx(line))
              || (WantsTx(line) && !CanTransmit(s, ms, |ms|)) || (WantsRx(line) && !CanReceive(s, ms, |ms|))
              || (WantsTx(line) && WantsRx(line) && !s.directional && s.both && !ServesBoth(ms, |ms|))
              || !PacketTimesAgree(s, Selected(s, ms, |ms|).value)
  {
    SelectionIsThere(s, ms, |ms|);
    TransmitsLeastRank(s, ms, |ms|);
    var tx := Selected(s, ms, |ms|).value.tx;
    hide Selected, FinalRx, Accepted, TxEligible;
    assert tx.Some? <==> CanTransmit(s, ms, |ms|);
  }
}
