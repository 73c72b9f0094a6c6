/**
 When a negotiation outside the scopes meets a packet in the making. `handle_response_` takes a 2xx to our own INVITE
 again once the record that replays its ACK is gone or does not match (esphome/components/voip_stack/sip_transport.cpp),
 and `learn_remote_rtp_from_sdp_` then writes the media and, after them, the address (sip_sdp.cpp), with no epoch to
 stop a reader. The acceptance of a new call and the answer to a delayed offer write in the same way.
 */
module MediaLate {
  import opened Machine
  import opened MediaEpoch
  import opened MediaRuns

  /** The handler takes this answer, and what it has begun to write can end up in a packet of no configuration. */
  ghost predicate AnswerMixes(s: State, kind: Negotiation, media: Media, ip: u32, video: bool) {
    MixesAfter(Step(s, Negotiates(kind, media, Some(ip), video)))
  }

  /** The answer's two writes done. */
  function Written(s: State, media: Media, ip: u32): (t: State)
    requires s.log.stable != []
    ensures t.count == s.count && t.rtp == s.rtp && t.scope.Idle? && t.live == Config(media, ip)
    ensures t.log.stable == s.log.stable + [Config(media, ip)]
  {
    s.(live := Config(media, ip), scope := Idle,
       log := s.log.(stable := s.log.stable + [Config(media, ip)], negotiated := s.log.negotiated + {|s.log.stable| - 1}))
  }

  lemma WritesOn(s: State, media: Media, ip: u32)
    requires s.log.stable != []
    ensures s.scope == Writing(media, Some(ip)) ==>
              && Step(s, Advance(false)) == s.(live := s.live.(media := media), scope := WritingIp(Some(ip)))
              && Step(Step(s, Advance(false)), Advance(false)) == Written(s, media, ip)
  {
  }

  lemma AdvanceWith(s: State, id: nat, r: Reader)
    requires s.scope.Writing? || s.scope.WritingIp?
    ensures Step(With(s, id, r), Advance(false)) == With(Step(s, Advance(false)), id, r)
  {
    hide NextSip, Answer, Arrive, Negotiate, End, Retarget, Start, StepReader, NoReceiver;
  }

  lemma WithoutIt(s: State, id: nat)
    requires id in s.rtp.readers && NoWrap(s)
    ensures var rest := s.(rtp := s.rtp.(readers := s.rtp.readers - {id}));
            With(rest, id, s.rtp.readers[id]) == s && NoWrap(rest)
  {
    assert (s.rtp.readers - {id})[id := s.rtp.readers[id]] == s.rtp.readers;
  }

  // ---------- The RTP task at a packet ----------

  // A receiver checks the address before the answer's is written, and looks its format up after the media are.

  /** A receiver of this epoch whose address check has passed, or would. */
  predicate Taken(s: State, r: Reader) {
    && s.log.stable != [] && r.count == s.count
    && match r.stage
       case Receiving(source, _) => s.live.ip == 0 || source == s.live.ip
       case ReceivingFrom(_, _, _) => r.index == |s.log.stable| - 1
       case _ => false
  }

  /** It has passed its address check. */
  function AddressChecked(s: State, r: Reader): (c: Reader)
    requires Taken(s, r)
    ensures c.count == r.count && c.index == |s.log.stable| - 1 && c.stage.ReceivingFrom?
    ensures c.stage.source == r.stage.source && c.stage.payloadType == r.stage.payloadType
  {
    if r.stage.ReceivingFrom? then r
    else Reader(r.count, |s.log.stable| - 1, ReceivingFrom(r.stage.source, r.stage.payloadType, s.live.ip))
  }

  lemma ReceiverChecks(s: State, id: nat, r: Reader) returns (ls: seq<Label>)
    requires Taken(s, r) && NoWrap(s)
    ensures NoWrap(With(s, id, AddressChecked(s, r)))
    ensures Orderly(With(s, id, r), ls) && Run(With(s, id, r), ls) == With(s, id, AddressChecked(s, r))
  {
    var c := AddressChecked(s, r);
    assert r.stage.Receiving? ==> NextStage(s, r) == Some(c.stage) && FirstRead(s, r) == c.index && Emitted(s, r) == [];
    assert r.stage.ReceivingFrom? ==> c == r;
    assert r.count == s.count && c == Reader(r.count, c.index, c.stage) && (r.stage.Receiving? || r.stage.ReceivingFrom?);
    hide *;
    WithWithin(s, id, r);
    WithWithin(s, id, c);
    Ends(With(s, id, c));
    ls := [];
    if r.stage.Receiving? {
      ReaderMoves(s, id, r, c.stage);
      ls := Earlier(With(s, id, r), ReaderStep(id), ls);
    }
  }

  /** The media are written, the receiver looks its format up, and the address is written before its last check. */
  lemma CheckedReceives(s: State, id: nat, r: Reader, media: Media, ip: u32) returns (ls: seq<Label>)
    requires s.scope == Writing(media, Some(ip)) && s.log.stable != [] && NoWrap(s) && id !in s.rtp.readers
    requires r.stage.ReceivingFrom? && r.count == s.count && r.stage.payloadType in media.rxFormats
    ensures var t, u := With(s, id, r), Run(With(s, id, r), ls);
            && Orderly(t, ls) && u.log.stable == s.log.stable + [Config(media, ip)]
            && u.rtp.packets == s.rtp.packets
               + [Received(r.stage.source, r.stage.payloadType, media.rxFormats[r.stage.payloadType], r.index,
                           |s.log.stable| + 1)]
  {
    var source, pt, format := r.stage.source, r.stage.payloadType, media.rxFormats[r.stage.payloadType];
    var mid := s.(live := s.live.(media := media), scope := WritingIp(Some(ip)));
    var end := Written(s, media, ip);
    var found := r.(stage := ReceivingAs(source, pt, r.stage.expected, format));
    var done := end.(rtp := end.rtp.(packets := end.rtp.packets + [ReceivedBy(end, source, pt, format, r.index)]));
    assert Harmless(Advance(false)) && Harmless(ReaderStep(id));
    assert ReceivedBy(end, source, pt, format, r.index) == Received(source, pt, format, r.index, |s.log.stable| + 1);
    hide *;
    WritesOn(s, media, ip);
    ReceiverReads(mid, r);
    ReaderMoves(mid, id, r, found.stage);
    AdvanceWith(s, id, r);
    AdvanceWith(mid, id, found);
    EmitsReceived(end, found);
    ReaderEnds(end, id, found);
    SameReaders(s, mid);
    SameReaders(s, end);
    SameReaders(end, done);
    WithWithin(s, id, r);
    WithWithin(mid, id, r);
    WithWithin(mid, id, found);
    WithWithin(end, id, found);
    Ends(done);
    ls := Earlier(With(end, id, found), ReaderStep(id), []);
    ls := Earlier(With(mid, id, found), Advance(false), ls);
    ls := Earlier(With(mid, id, r), ReaderStep(id), ls);
    ls := Earlier(With(s, id, r), Advance(false), ls);
  }

  // ---------- A sender under way ----------

  /** A sender of this epoch that has not read its address yet, and what it has read is in place. */
  predicate UnderWay(s: State, id: nat) {
    && s.log.stable != [] && id in s.rtp.readers && s.rtp.readers[id].count == s.count
    && match s.rtp.readers[id].stage
       case Sending => true
       case SendingMedia(m) => m == s.live.media && s.rtp.readers[id].index == |s.log.stable| - 1
       case SendingChecked(m) => m == s.live.media && s.rtp.readers[id].index == |s.log.stable| - 1
       case _ => false
  }

  /** It has read the media, and its first check has passed. */
  function Checked(s: State, id: nat): State
    requires s.log.stable != []
  {
    With(s, id, Reader(s.count, |s.log.stable| - 1, SendingChecked(s.live.media)))
  }

  lemma SenderChecks(s: State, id: nat) returns (ls: seq<Label>)
    requires UnderWay(s, id) && NoWrap(s)
    ensures Orderly(s, ls) && Run(s, ls) == Checked(s, id)
  {
    var r, m := s.rtp.readers[id], s.live.media;
    var read := Reader(s.count, |s.log.stable| - 1, SendingMedia(m));
    var checked := read.(stage := SendingChecked(m));
    var t := Checked(s, id);
    SenderReads(s, r, read, checked);
    assert r.stage.SendingMedia? ==> r == read;
    assert r.stage.SendingChecked? ==> r == checked;
    assert t == With(s, id, checked);
    hide *;
    WithItself(s, id);
    WithWithin(s, id, read);
    WithWithin(s, id, checked);
    Ends(t);
    ls := [];
    if !r.stage.SendingChecked? {
      ReaderMoves(s, id, read, checked.stage);
      ls := Earlier(With(s, id, read), ReaderStep(id), ls);
      if r.stage.Sending? {
        ReaderMoves(s, id, r, read.stage);
        ls := Earlier(s, ReaderStep(id), ls);
      }
    }
  }

  lemma SenderReads(s: State, r: Reader, read: Reader, checked: Reader)
    requires s.log.stable != [] && read == Reader(s.count, |s.log.stable| - 1, SendingMedia(s.live.media))
    requires checked == read.(stage := SendingChecked(s.live.media)) && r.count == s.count
    ensures r.stage.Sending? ==>
              NextStage(s, r) == Some(read.stage) && FirstRead(s, r) == read.index && Emitted(s, r) == []
    ensures NextStage(s, read) == Some(checked.stage) && FirstRead(s, read) == read.index && Emitted(s, read) == []
  {
  }

  lemma WithItself(s: State, id: nat)
    requires id in s.rtp.readers
    ensures With(s, id, s.rtp.readers[id]) == s
  {
    assert s.rtp.readers[id := s.rtp.readers[id]] == s.rtp.readers;
  }

  /** The answer is written, the RTP path runs, and the sender takes its address: the old media go to the new address. */
  lemma CheckedSends(s: State, id: nat, r: Reader, media: Media, ip: u32, m: Media) returns (ls: seq<Label>)
    requires s.scope == Writing(media, Some(ip)) && s.log.stable != [] && NoWrap(s) && id !in s.rtp.readers
    requires r.stage == SendingChecked(m) && r.count == s.count && ip != 0
    requires (s.rtp.running && s.rtp.looping) || (!s.rtp.running && NoReceiver(s))
    ensures var t, u := With(s, id, r), Run(With(s, id, r), ls);
            && Orderly(t, ls) && u.log.stable == s.log.stable + [Config(media, ip)] && u.count == s.count
            && u.rtp.packets == s.rtp.packets + [Sent(m.txFormat, m.txPayloadType, ip, r.index, |s.log.stable| + 1)]
  {
    var mid := s.(live := s.live.(media := media), scope := WritingIp(Some(ip)));
    var end := Written(s, media, ip);
    var out := if s.rtp.running then end else end.(rtp := end.rtp.(looping := false));
    var started := end.(rtp := end.rtp.(running := true, looping := true));
    var taking := r.(stage := SendingTo(m, ip));
    var done := started.(rtp := started.rtp.(packets := s.rtp.packets + [SentBy(started, m, ip, r.index)]));
    assert Harmless(RtpQuiesces) && Harmless(RtpStart) && Harmless(Advance(false)) && Harmless(ReaderStep(id));
    assert OnAir(out) == started && OnAir(With(out, id, r)) == With(OnAir(out), id, r);
    assert IsSender(r.stage) && SentBy(started, m, ip, r.index)
                                == Sent(m.txFormat, m.txPayloadType, ip, r.index, |s.log.stable| + 1);
    hide *;
    TakesAddress(started, r, m);
    WritesOn(s, media, ip);
    AdvanceWith(s, id, r);
    AdvanceWith(mid, id, r);
    SameReaders(s, mid);
    SameReaders(s, end);
    SameReaders(s, out);
    SameReaders(s, started);
    SameReaders(s, done);
    Quiesces(end, id, r);
    GoesOnAir(With(out, id, r));
    ReaderMoves(started, id, r, taking.stage);
    EmitsSent(started, taking);
    ReaderEnds(started, id, taking);
    WithWithin(s, id, r);
    WithWithin(mid, id, r);
    WithWithin(end, id, r);
    WithWithin(out, id, r);
    WithWithin(started, id, r);
    WithWithin(started, id, taking);
    Ends(done);
    ls := Earlier(With(started, id, taking), ReaderStep(id), []);
    ls := Earlier(With(started, id, r), ReaderStep(id), ls);
    ls := Earlier(With(out, id, r), RtpStart, ls);
    ls := Earlier(With(end, id, r), RtpQuiesces, ls);
    ls := Earlier(With(mid, id, r), Advance(false), ls);
    ls := Earlier(With(s, id, r), Advance(false), ls);
  }

  /** Beside a sender the RTP task leaves its loop once the path has stopped. */
  lemma Quiesces(s: State, id: nat, r: Reader)
    requires s.scope.Idle? && IsSender(r.stage) && (s.rtp.running || NoReceiver(s))
    ensures var out := if s.rtp.running then s else s.(rtp := s.rtp.(looping := false));
            Step(With(s, id, r), RtpQuiesces) == With(out, id, r)
  {
  }

  lemma TakesAddress(s: State, r: Reader, m: Media)
    requires s.rtp.running && s.live.ip != 0 && r.count == s.count && r.stage == SendingChecked(m)
    ensures NextStage(s, r) == Some(SendingTo(m, s.live.ip)) && FirstRead(s, r) == r.index && Emitted(s, r) == []
  {
  }

  lemma StartedIsUnderWay(t: State, id: nat)
    requires t.log.stable != []
    ensures var r, checked := Now(t, Sending), Reader(t.count, |t.log.stable| - 1, SendingChecked(t.live.media));
            && UnderWay(With(t, id, r), id) && Harmless(StartSending(id)) && r.count == t.count
            && Checked(With(t, id, r), id) == With(t, id, checked)
  {
    var r, checked := Now(t, Sending), Reader(t.count, |t.log.stable| - 1, SendingChecked(t.live.media));
    assert t.rtp.readers[id := r][id := checked] == t.rtp.readers[id := checked];
  }

  /** A sender starts as the answer is about to be written. */
  lemma SendsOverAnswer(t: State, id: nat, media: Media, ip: u32) returns (ls: seq<Label>)
    requires t.scope == Writing(media, Some(ip)) && t.log.stable != [] && t.count % 2 == 0 && NoWrap(t) && ip != 0
    requires t.rtp.running && t.rtp.looping && id !in t.rtp.readers
    ensures Orderly(t, ls)
    ensures var u, m := Run(t, ls), t.live.media;
            && u.log.stable == t.log.stable + [Config(media, ip)] && u.count == t.count
            && u.rtp.packets == t.rtp.packets
               + [Sent(m.txFormat, m.txPayloadType, ip, |t.log.stable| - 1, |t.log.stable| + 1)]
  {
    var r, checked := Now(t, Sending), Reader(t.count, |t.log.stable| - 1, SendingChecked(t.live.media));
    hide *;
    StartedIsUnderWay(t, id);
    SenderStarts(t, id);
    WithWithin(t, id, r);
    var start := SenderChecks(With(t, id, r), id);
    ls := CheckedSends(t, id, checked, media, ip, t.live.media);
    RunsJoin(With(t, id, r), start, ls);
    ls := Earlier(t, StartSending(id), start + ls);
  }

  // ---------- Exactly when an answer mixes ----------

  /** An answer of this kind is taken; which address it carries does not decide that. */
  predicate Takes(s: State, kind: Negotiation) {
    Handles(s, kind, Some(0))
  }

  lemma HandledIsWriting(s: State, kind: Negotiation, media: Media, ip: u32, video: bool)
    requires Inv(s) && Takes(s, kind)
    ensures var t := Step(s, Negotiates(kind, media, Some(ip), video));
            && t == s.(scope := Writing(media, Some(ip)), sip := t.sip)
            && s.scope.Idle? && s.log.stable != [] && s.count % 2 == 0 && s.live == Last(s)
            && (s.rtp.running ==> s.rtp.looping)
  {
    hide NegotiatedSip, ReadersHold, PacketsFromOne, ChangesInv;
  }

  /** A reader at risk has read nothing but what is in place. */
  lemma RiskIsUnderWay(s: State, id: nat)
    requires Inv(s) && s.scope.Idle? && id in s.rtp.readers && AtRisk(s, s.rtp.readers[id])
    ensures UnderWay(s, id) || Taken(s, s.rtp.readers[id])
  {
    assert ReaderHolds(s, s.rtp.readers[id]);
  }

  /** Other formats than those in place. */
  function OtherMedia(c: Config, pt: byte): Media {
    Media(if c.media.txFormat == 0 then 1 else 0, 0,
          map[pt := if pt in c.media.rxFormats && c.media.rxFormats[pt] == 0 then 1 else 0])
  }

  /** Another address than these. */
  function OtherIp(a: u32, b: u32): (ip: u32)
    ensures ip != 0 && ip != a && ip != b
  {
    if a != 1 && b != 1 then 1 else if a != 2 && b != 2 then 2 else 3
  }

  /** What is made of both configurations belongs to neither. */
  lemma NeitherExplains(p: Packet, stable: seq<Config>, before: Config, pt: byte, ip: u32)
    requires |stable| >= 2 && p.index == |stable| - 2 && p.until == |stable| && stable[|stable| - 2] == before
    requires stable[|stable| - 1] == Config(OtherMedia(before, pt), ip) && ip != 0
    requires match p
             case Sent(format, _, to, _, _) => format == before.media.txFormat && to == ip && ip != before.ip
             case Received(source, payloadType, format, _, _) =>
               payloadType == pt && format == OtherMedia(before, pt).rxFormats[pt] && source != ip
    ensures !FromOne(p, stable)
  {
    assert !Built(p, before);
    assert !Built(p, Config(OtherMedia(before, pt), ip));
    hide Built;
  }

  lemma Shows(s: State, ls: seq<Label>, i: nat)
    requires Orderly(s, ls) && i < |Run(s, ls).rtp.packets|
    requires !FromOne(Run(s, ls).rtp.packets[i], Run(s, ls).log.stable)
    ensures MixesAfter(s)
  {
    hide Orderly, Run, FromOne;
    assert !PacketsFromOne(Run(s, ls));
  }

  /** The handler of an answer is about to write. */
  predicate Answering(t: State, c: Config, media: Media, ip: u32) {
    && t.scope == Writing(media, Some(ip)) && t.live == c && t.count % 2 == 0 && NoWrap(t)
    && t.log.stable != [] && Last(t) == c && (t.rtp.running ==> t.rtp.looping) && OneReceiver(t.rtp.readers)
  }

  lemma AnsweringIs(t: State, c: Config, media: Media, ip: u32)
    requires Answering(t, c, media, ip)
    ensures t.scope == Writing(media, Some(ip)) && t.live == c && t.count % 2 == 0 && NoWrap(t)
    ensures t.log.stable != [] && t.log.stable[|t.log.stable| - 1] == c && (t.rtp.running ==> t.rtp.looping)
  {
  }

  lemma BringsFormat(c: Config, pt: byte)
    ensures pt in OtherMedia(c, pt).rxFormats
  {
  }

  lemma StillTaken(s: State, t: State, r: Reader)
    requires Taken(s, r) && t.count == s.count && t.log.stable == s.log.stable && t.live == s.live
    ensures Taken(t, r)
  {
  }

  /** The RTP task is at a packet that it has yet to look up. */
  lemma TakenMixes(t: State, c: Config, id: nat, pt: byte, ip: u32)
    requires Answering(t, c, OtherMedia(c, pt), ip) && ip != 0
    requires id in t.rtp.readers && Taken(t, t.rtp.readers[id])
    requires t.rtp.readers[id].stage.payloadType == pt && t.rtp.readers[id].stage.source != ip
    ensures MixesAfter(t)
  {
    var r, media := t.rtp.readers[id], OtherMedia(c, pt);
    var rest := t.(rtp := t.rtp.(readers := t.rtp.readers - {id}));
    hide *;
    AnsweringIs(t, c, media, ip);
    BringsFormat(c, pt);
    StillTaken(t, rest, r);
    WithoutIt(t, id);
    var checked := AddressChecked(rest, r);
    var first := ReceiverChecks(rest, id, r);
    var ls := CheckedReceives(rest, id, checked, media, ip);
    RunsJoin(t, first, ls);
    var u := Run(t, first + ls);
    NeitherExplains(u.rtp.packets[|t.rtp.packets|], u.log.stable, c, pt, ip);
    Shows(t, first + ls, |t.rtp.packets|);
  }

  /** A sender is at a packet whose address it has yet to read. */
  lemma UnderWayMixes(t: State, c: Config, id: nat, ip: u32)
    requires Answering(t, c, OtherMedia(c, 0), ip) && ip != 0 && ip != c.ip
    requires UnderWay(t, id) && (t.rtp.running || NoReceiver(t))
    ensures MixesAfter(t)
  {
    var media, r := OtherMedia(c, 0), Reader(t.count, |t.log.stable| - 1, SendingChecked(c.media));
    var rest := t.(rtp := t.rtp.(readers := t.rtp.readers - {id}));
    assert Checked(t, id) == With(t, id, r) == With(rest, id, r) by {
      assert t.rtp.readers[id := r] == (t.rtp.readers - {id})[id := r];
    }
    assert id in t.rtp.readers && (NoReceiver(t) ==> NoReceiver(rest));
    hide *;
    AnsweringIs(t, c, media, ip);
    WithoutIt(t, id);
    var first := SenderChecks(t, id);
    var ls := CheckedSends(rest, id, r, media, ip, c.media);
    RunsJoin(t, first, ls);
    var u := Run(t, first + ls);
    NeitherExplains(u.rtp.packets[|t.rtp.packets|], u.log.stable, c, 0, ip);
    Shows(t, first + ls, |t.rtp.packets|);
  }

  /** Where a run leads to a state with such a continuation, it has one itself. */
  lemma LeadsToMixing(s: State, ls: seq<Label>)
    requires Orderly(s, ls) && MixesAfter(Run(s, ls))
    ensures MixesAfter(s)
  {
    hide Orderly, Run, PacketsFromOne;
    var more :| Orderly(Run(s, ls), more) && !PacketsFromOne(Run(Run(s, ls), more));
    RunsJoin(s, ls, more);
  }

  /** The RTP task finishes the packet it is at, and the answer is still to be written. */
  lemma DrainsAnswering(t: State, c: Config, media: Media, ip: u32) returns (ls: seq<Label>)
    requires Answering(t, c, media, ip)
    ensures Orderly(t, ls) && Drained(t, Run(t, ls)) && Answering(Run(t, ls), c, media, ip)
  {
    ls := Drains(t);
    hide Orderly, Run;
  }

  lemma RunningMixes(t: State, c: Config, ip: u32)
    requires Answering(t, c, OtherMedia(c, 0), ip) && ip != 0 && ip != c.ip && t.rtp.running
    ensures MixesAfter(t)
  {
    hide *;
    AnsweringIs(t, c, OtherMedia(c, 0), ip);
    var id := UnusedId(t.rtp.readers.Keys);
    var ls := SendsOverAnswer(t, id, OtherMedia(c, 0), ip);
    var u := Run(t, ls);
    NeitherExplains(u.rtp.packets[|t.rtp.packets|], u.log.stable, c, 0, ip);
    Shows(t, ls, |t.rtp.packets|);
  }

  /** The RTP task is at no packet, and takes one. */
  lemma LoopMixes(t: State, c: Config, ip: u32)
    requires Answering(t, c, OtherMedia(c, 0), ip) && ip != 0 && ip != c.ip
    requires t.rtp.looping && t.rtp.active && NoReceiver(t)
    ensures MixesAfter(t)
  {
    var id := UnusedId(t.rtp.readers.Keys);
    var source := if c.ip != 0 then c.ip else OtherIp(ip, ip);
    var r := Now(t, Receiving(source, 0));
    var u := With(t, id, r);
    ReceiverStarts(t, id, source, 0);
    assert NoWrap(t) && Harmless(StartReceiving(id, source, 0));
    WithWithin(t, id, r);
    assert Answering(u, c, OtherMedia(c, 0), ip) && Taken(u, r);
    assert r.stage == Receiving(source, 0) && u.rtp.readers[id] == r;
    hide *;
    TakenMixes(u, c, id, 0, ip);
    Ends(u);
    var ls := Earlier(t, StartReceiving(id, source, 0), []);
    LeadsToMixing(t, ls);
  }

  /** Some answer mixes. */
  ghost predicate AnyMixes(s: State, kind: Negotiation) {
    exists media, ip, video :: AnswerMixes(s, kind, media, ip, video)
  }

  lemma SomeMixes(s: State, kind: Negotiation, media: Media, ip: u32)
    requires MixesAfter(Step(s, Negotiates(kind, media, Some(ip), false)))
    ensures AnyMixes(s, kind)
  {
    hide Step, MixesAfter;
    assert AnswerMixes(s, kind, media, ip, false);
  }

  lemma HandledIsAnswering(s: State, kind: Negotiation, media: Media, ip: u32)
    requires Inv(s) && Roomy(s) && Takes(s, kind)
    ensures var t := Step(s, Negotiates(kind, media, Some(ip), false)); Answering(t, s.live, media, ip) && t.rtp == s.rtp
    ensures s.log.stable != [] && s.scope.Idle?
  {
    HandledIsWriting(s, kind, media, ip, false);
    hide Step;
  }

  /** From every exposed state in which an answer is taken, some answer mixes. */
  lemma ExposedMixes(s: State, kind: Negotiation)
    requires Inv(s) && Roomy(s) && Takes(s, kind) && Exposed(s)
    ensures AnyMixes(s, kind)
  {
    var ip := OtherIp(s.live.ip, s.live.ip);
    var t := Step(s, Negotiates(kind, OtherMedia(s.live, 0), Some(ip), false));
    HandledIsAnswering(s, kind, OtherMedia(s.live, 0), ip);
    hide Step, Answering, Inv, Roomy, Takes;
    if s.rtp.running {
      RunningMixes(t, s.live, ip);
      SomeMixes(s, kind, OtherMedia(s.live, 0), ip);
    } else if s.rtp.looping && s.rtp.active {
      var ls := DrainsAnswering(t, s.live, OtherMedia(s.live, 0), ip);
      LoopMixes(Run(t, ls), s.live, ip);
      LeadsToMixing(t, ls);
      SomeMixes(s, kind, OtherMedia(s.live, 0), ip);
    } else {
      var id :| id in s.rtp.readers && AtRisk(s, s.rtp.readers[id]);
      AtRiskMixes(s, kind, id);
    }
  }

  lemma AtRiskMixes(s: State, kind: Negotiation, id: nat)
    requires Inv(s) && Roomy(s) && Takes(s, kind)
    requires id in s.rtp.readers && AtRisk(s, s.rtp.readers[id]) && !s.rtp.running
    ensures AnyMixes(s, kind)
  {
    var stage := s.rtp.readers[id].stage;
    var pt := if stage.Receiving? || stage.ReceivingFrom? then stage.payloadType else 0;
    var ip := OtherIp(s.live.ip, if stage.Receiving? || stage.ReceivingFrom? then stage.source else 0);
    var media := OtherMedia(s.live, pt);
    var t := Step(s, Negotiates(kind, media, Some(ip), false));
    HandledIsAnswering(s, kind, media, ip);
    RiskIsUnderWay(s, id);
    HandledIsWriting(s, kind, media, ip, false);
    if Taken(s, s.rtp.readers[id]) {
      assert Taken(t, t.rtp.readers[id]);
      hide *;
      TakenMixes(t, s.live, id, pt, ip);
    } else {
      var ls := DrainsAnswering(t, s.live, media, ip);
      assert UnderWay(t, id);
      assert UnderWay(Run(t, ls), id);
      hide *;
      UnderWayMixes(Run(t, ls), s.live, id, ip);
      LeadsToMixing(t, ls);
    }
    SomeMixes(s, kind, media, ip);
  }

  /**
   Where a 2xx to our own INVITE, a new call's offer or the answer to a delayed offer is taken, some such message has a
   continuation that builds a packet from no stable configuration in force if and only if the RTP path runs, the RTP task
   may take a packet, or a reader at a packet has yet to read something.
   */
  lemma MixesIffExposed(s: State, kind: Negotiation)
    requires Inv(s) && Roomy(s) && Takes(s, kind)
    ensures (exists media, ip, video :: AnswerMixes(s, kind, media, ip, video)) <==> Exposed(s)
  {
    if Exposed(s) {
      ExposedMixes(s, kind);
    } else {
      assert NoWrap(s);
      hide Exposed;
      forall media, ip, video
        ensures !AnswerMixes(s, kind, media, ip, video)
      {
        SafeStep(s, Negotiates(kind, media, Some(ip), video));
      }
    }
  }

  // ---------- A run of one call ----------

  /** We originate a call, and its 2xx brings the configuration. */
  function OwnCall(c: Config): seq<Label> {
    [CallEnds, Signalled(Invites), Negotiates(OwnAnswer(false), c.media, Some(c.ip), false), Advance(false), Advance(false)]
  }

  /** The media open, the RTP path runs, and the record that replays the ACK lapses after 64*T1. */
  function TimePasses(): seq<Label> {
    [MediaOpens, RtpStart, Signalled(Lapses)]
  }

  function CallThenLapse(c: Config): seq<Label> {
    OwnCall(c) + TimePasses()
  }

  function Called(config: Config, candidate: Config, c: Config): State {
    State(0, c, Idle, candidate, Rtp(false, false, false, map[], []), Log([config, c], {}, {0}),
          Sip(NoOwn, false, NoTransfer, 3, 1, 4, Recorded, NoCall))
  }

  function Lapsing(config: Config, candidate: Config, c: Config): State {
    State(0, c, Idle, candidate, Rtp(true, true, true, map[], []), Log([config, c], {}, {0}),
          Sip(NoOwn, false, NoTransfer, 3, 1, 4, Lapsed, NoCall))
  }

  lemma Calls(config: Config, candidate: Config, c: Config)
    ensures Orderly(Initial(config, candidate, false), OwnCall(c))
    ensures Run(Initial(config, candidate, false), OwnCall(c)) == Called(config, candidate, c)
  {
    var s, t := Initial(config, candidate, false), Called(config, candidate, c);
    var a := Step(s, CallEnds);
    var b := Step(a, Signalled(Invites));
    var d := Step(b, Negotiates(OwnAnswer(false), c.media, Some(c.ip), false));
    var e := Step(d, Advance(false));
    assert b == s.(sip := Sip(NoOwn, false, NoTransfer, 3, 1, 4, Inviting, NoCall), rtp := s.rtp.(active := false));
    assert Step(e, Advance(false)) == t;
    assert !Exposed(b);
    assert NoWrap(s) && NoWrap(a) && NoWrap(b) && NoWrap(d) && NoWrap(e) && NoWrap(t);
    assert Harmless(CallEnds) && Harmless(Signalled(Invites)) && Harmless(Advance(false));
    assert !Hazard(b, Negotiates(OwnAnswer(false), c.media, Some(c.ip), false));
    assert OwnCall(c) == [CallEnds, Signalled(Invites), Negotiates(OwnAnswer(false), c.media, Some(c.ip), false),
                          Advance(false), Advance(false)];
    hide *;
    Ends(t);
    var ls := Earlier(e, Advance(false), []);
    ls := Earlier(d, Advance(false), ls);
    ls := Earlier(b, Negotiates(OwnAnswer(false), c.media, Some(c.ip), false), ls);
    ls := Earlier(a, Signalled(Invites), ls);
    ls := Earlier(s, CallEnds, ls);
    assert ls == OwnCall(c);
  }

  lemma RecordLapses(config: Config, candidate: Config, c: Config)
    ensures Orderly(Called(config, candidate, c), TimePasses())
    ensures Run(Called(config, candidate, c), TimePasses()) == Lapsing(config, candidate, c)
  {
    var s, t := Called(config, candidate, c), Lapsing(config, candidate, c);
    var a := Step(s, MediaOpens);
    var b := Step(a, RtpStart);
    assert Step(b, Signalled(Lapses)) == t;
    assert NoWrap(s) && NoWrap(a) && NoWrap(b) && NoWrap(t);
    assert Harmless(MediaOpens) && Harmless(RtpStart) && Harmless(Signalled(Lapses));
    assert TimePasses() == [MediaOpens, RtpStart, Signalled(Lapses)];
    hide *;
    Ends(t);
    var ls := Earlier(b, Signalled(Lapses), []);
    ls := Earlier(a, RtpStart, ls);
    ls := Earlier(s, MediaOpens, ls);
    assert ls == TimePasses();
  }

  lemma CallsThenLapses(config: Config, candidate: Config, c: Config)
    ensures Orderly(Initial(config, candidate, false), CallThenLapse(c))
    ensures Run(Initial(config, candidate, false), CallThenLapse(c)) == Lapsing(config, candidate, c)
  {
    Calls(config, candidate, c);
    RecordLapses(config, candidate, c);
    assert CallThenLapse(c) == OwnCall(c) + TimePasses();
    hide *;
    RunsJoin(Initial(config, candidate, false), OwnCall(c), TimePasses());
  }

  lemma LateAnswerBegins(config: Config, candidate: Config, first: Config, second: Config)
    ensures var s, late := Lapsing(config, candidate, first),
                           Negotiates(OwnAnswer(true), second.media, Some(second.ip), false);
            && Step(s, late) == s.(scope := Writing(second.media, Some(second.ip)), sip := s.sip.(leg := Recorded))
            && s.scope.Idle? && s.sip.transfer.NoTransfer? && !s.sip.video && WritesExposed(s, late)
            && s.log.stable == [config, first] && s.live == first && s.count == 0 && s.rtp == Rtp(true, true, true, map[], [])
            && NoWrap(Step(s, late))
  {
  }

  lemma NoneBuilds(p: Packet, config: Config, first: Config, second: Config)
    requires p.Sent? && p.ip == second.ip && p.ip != first.ip && p.ip != config.ip
    requires p.format != second.media.txFormat
    ensures forall c :: c in [config, first, second] ==> !Built(p, c)
  {
  }

  /**
   From the start: in a call we originated more than 64*T1 ago, another 2xx to its INVITE brings other media and another
   address, and a packet in the old format goes to the new address, although the epoch never moved. No scope is open,
   and neither a transfer nor video is involved.
   */
  lemma LateAnswerMixesConfigurations(config: Config, candidate: Config, first: Config, second: Config)
    returns (after: seq<Label>)
    requires second.ip != 0 && second.ip != first.ip && second.ip != config.ip
    requires second.media.txFormat != first.media.txFormat
    ensures Orderly(Initial(config, candidate, false), CallThenLapse(first))
    ensures var s := Run(Initial(config, candidate, false), CallThenLapse(first));
            var late := Negotiates(OwnAnswer(true), second.media, Some(second.ip), false);
            var t := Run(Step(s, late), after);
            && s.scope.Idle? && s.sip.transfer.NoTransfer? && !s.sip.video && WritesExposed(s, late)
            && Orderly(Step(s, late), after) && t.count == s.count
            && (exists p :: p in t.rtp.packets && forall c :: c in t.log.stable ==> !Built(p, c))
  {
    hide *;
    CallsThenLapses(config, candidate, first);
    LateAnswerBegins(config, candidate, first, second);
    var s := Lapsing(config, candidate, first);
    var t := Step(s, Negotiates(OwnAnswer(true), second.media, Some(second.ip), false));
    after := SendsOverAnswer(t, 0, second.media, second.ip);
    var p := Sent(first.media.txFormat, first.media.txPayloadType, second.ip, 1, 3);
    NoneBuilds(p, config, first, second);
    assert Run(t, after).log.stable == [config, first, second];
    assert Run(t, after).rtp.packets == [p];
    assert p in Run(t, after).rtp.packets;
  }
}
