/**
 Pieces of orderly runs of the media epoch: the straight line through a REFER scope, and one receiver from the epoch it
 loads to the packet it hands on.
 */
module MediaRuns {
  import opened Machine
  import opened MediaEpoch

  /** Steps that no guard is about. */
  predicate Harmless(l: Label) {
    !l.Negotiates? && !l.SetRemote? && l != Signalled(RetryDue(true)) && l != Advance(true)
  }

  /** The run and its order, one step earlier. */
  lemma Earlier(s: State, l: Label, ls: seq<Label>) returns (longer: seq<Label>)
    requires NoWrap(s) && Orderly(Step(s, l), ls) && (Harmless(l) || !Hazard(s, l))
    ensures longer == [l] + ls && Orderly(s, longer) && Run(s, longer) == Run(Step(s, l), ls)
  {
    assert !Hazard(s, l);
    hide Step, NoWrap, Hazard;
    longer := [l] + ls;
    assert longer[0] == l && longer[1..] == ls;
  }

  /** The run that ends here. */
  lemma Ends(s: State)
    requires NoWrap(s)
    ensures Orderly(s, []) && Run(s, []) == s
  {
  }

  lemma SameReaders(s: State, t: State)
    requires NoWrap(s) && t.count == s.count && t.rtp.readers == s.rtp.readers
    ensures NoWrap(t) && (NoReceiver(s) ==> NoReceiver(t))
  {
  }

  lemma {:induction false} RunsJoin(s: State, ls: seq<Label>, more: seq<Label>)
    requires Orderly(s, ls) && Orderly(Run(s, ls), more)
    ensures Orderly(s, ls + more) && Run(s, ls + more) == Run(Run(s, ls), more)
    decreases |ls|
  {
    hide Step, NoWrap, Hazard;
    if ls == [] {
      assert ls + more == more;
    } else {
      RunsJoin(Step(s, ls[0]), ls[1..], more);
      assert (ls + more)[0] == ls[0] && (ls + more)[1..] == ls[1..] + more;
    }
  }

  /** No reader is within ten bumps of a turn of the epoch word. */
  predicate Roomy(s: State) {
    forall id :: id in s.rtp.readers ==> s.count + 10 - s.rtp.readers[id].count < 0x1_0000_0000
  }

  /** From here some orderly run lets a packet through that no stable configuration in force while it was made explains. */
  ghost predicate MixesAfter(s: State) {
    exists ls :: Orderly(s, ls) && !PacketsFromOne(Run(s, ls))
  }

  /** No step that meets none of the guards leads there. */
  lemma SafeStep(s: State, l: Label)
    requires Inv(s) && NoWrap(s) && !Hazard(s, l)
    ensures !MixesAfter(Step(s, l))
  {
    StepKeeps(s, l);
    hide Hazard, NoWrap;
    forall ls | Orderly(Step(s, l), ls)
      ensures PacketsFromOne(Run(Step(s, l), ls))
    {
      RunKeeps(Step(s, l), ls);
    }
  }

  // ---------- Scopes ----------

  /** A REFER scope closes, uncommitted. */
  function Leaving(): seq<Label> {
    [Advance(false), Advance(false), Advance(false)]
  }

  function Left(s: State): State
    requires s.scope.InRefer?
  {
    s.(count := s.count + 1, live := s.scope.other, scope := Idle, candidate := s.live,
       log := s.log.(stable := s.log.stable + [s.scope.other]))
  }

  lemma Leaves(s: State)
    requires s.scope.InRefer? && NoWrap(s) && NoWrap(Left(s))
    ensures Orderly(s, Leaving()) && Run(s, Leaving()) == Left(s)
  {
    var a := Step(s, Advance(false));
    var b := Step(a, Advance(false));
    assert Step(b, Advance(false)) == Left(s);
    assert Orderly(Left(s), []) && Run(Left(s), []) == Left(s);
    hide Step, Hazard, Orderly, Run, Left;
    var ls := Earlier(b, Advance(false), []);
    ls := Earlier(a, Advance(false), ls);
    ls := Earlier(s, Advance(false), ls);
    assert ls == Leaving();
  }

  /** A REFER scope opens and swaps the candidate in. */
  function Entering(): seq<Label> {
    [OpenRefer, Advance(false), Advance(false)]
  }

  function Entered(s: State): State {
    s.(count := s.count + 1, live := s.candidate, scope := InRefer(s.live))
  }

  lemma Enters(s: State)
    requires s.scope.Idle? && !s.sip.transfer.NoTransfer? && NoWrap(s) && NoWrap(Entered(s))
    ensures Orderly(s, Entering()) && Run(s, Entering()) == Entered(s)
  {
    var a := Step(s, OpenRefer);
    var b := Step(a, Advance(false));
    assert Step(b, Advance(false)) == Entered(s);
    assert Orderly(Entered(s), []) && Run(Entered(s), []) == Entered(s);
    hide Step, Hazard, Orderly, Run, Entered;
    var ls := Earlier(b, Advance(false), []);
    ls := Earlier(a, Advance(false), ls);
    ls := Earlier(s, OpenRefer, ls);
    assert ls == Entering();
  }

  // ---------- Readers ----------

  /** `s` with this reader. */
  function With(s: State, id: nat, r: Reader): (t: State)
    ensures t == s.(rtp := t.rtp) && t.rtp == s.rtp.(readers := t.rtp.readers) && t.rtp.readers == s.rtp.readers[id := r]
  {
    s.(rtp := s.rtp.(readers := s.rtp.readers[id := r]))
  }

  /** A reader of this epoch and configuration. */
  function Now(s: State, stage: Stage): Reader
    requires s.log.stable != []
  {
    Reader(s.count, |s.log.stable| - 1, stage)
  }

  lemma WithWithin(s: State, id: nat, r: Reader)
    requires NoWrap(s) && r.count == s.count
    ensures NoWrap(With(s, id, r))
  {
    hide With;
  }

  lemma EvenEpoch(s: State)
    requires s.count % 2 == 0
    ensures Epoch(s) % 2 == 0
  {
    WrapParity(s.count);
    hide Wrap32;
  }

  /** One step of a reader does what its stage says and nothing else. */
  lemma ReaderMoves(s: State, id: nat, r: Reader, next: Stage)
    requires NextStage(s, r) == Some(next) && Emitted(s, r) == []
    ensures Step(With(s, id, r), ReaderStep(id)) == With(s, id, Reader(r.count, FirstRead(s, r), next))
  {
    var t, r' := With(s, id, r), Reader(r.count, FirstRead(s, r), next);
    assert NextStage(t, r) == NextStage(s, r) && Emitted(t, r) == Emitted(s, r);
    hide NextStage, Emitted, NextScope, NextSip, Answer, Arrive, Negotiate, End, Retarget, NoReceiver;
    assert s.rtp.readers[id := r][id := r'] == s.rtp.readers[id := r'];
    assert t.rtp.packets + [] == s.rtp.packets;
  }

  /** Its last step leaves no trace of it but the packet. */
  lemma ReaderEnds(s: State, id: nat, r: Reader)
    requires id !in s.rtp.readers && NextStage(s, r).None?
    ensures Step(With(s, id, r), ReaderStep(id)) == s.(rtp := s.rtp.(packets := s.rtp.packets + Emitted(s, r)))
  {
    var t := With(s, id, r);
    assert NextStage(t, r) == NextStage(s, r) && Emitted(t, r) == Emitted(s, r);
    hide NextStage, Emitted, NextScope, NextSip, Answer, Arrive, Negotiate, End, Retarget, NoReceiver;
    assert s.rtp.readers[id := r] - {id} == s.rtp.readers;
  }

  lemma EmitsReceived(s: State, r: Reader)
    requires r.stage.ReceivingAs? && r.count == s.count
    ensures NextStage(s, r).None?
    ensures Emitted(s, r) == [ReceivedBy(s, r.stage.source, r.stage.payloadType, r.stage.format, r.index)]
  {
  }

  lemma EmitsSent(s: State, r: Reader)
    requires r.stage.SendingTo? && r.count == s.count
    ensures NextStage(s, r).None?
    ensures Emitted(s, r) == [SentBy(s, r.stage.media, r.stage.ip, r.index)]
  {
  }

  lemma ReceiverStarts(s: State, id: nat, source: u32, pt: byte)
    requires s.log.stable != [] && s.count % 2 == 0 && id !in s.rtp.readers
    requires s.rtp.looping && s.rtp.active && NoReceiver(s)
    ensures Step(s, StartReceiving(id, source, pt)) == With(s, id, Now(s, Receiving(source, pt)))
  {
    assert Step(s, StartReceiving(id, source, pt)) == Start(s, id, Receiving(source, pt));
    EvenEpoch(s);
    hide Step, Epoch;
  }

  lemma SenderStarts(s: State, id: nat)
    requires s.log.stable != [] && s.count % 2 == 0 && s.rtp.running && id !in s.rtp.readers
    ensures Step(s, StartSending(id)) == With(s, id, Now(s, Sending))
  {
    assert Step(s, StartSending(id)) == Start(s, id, Sending);
    EvenEpoch(s);
    hide Step, Epoch;
  }

  /** The steps the RTP task has left at its packet. */
  function Remaining(stage: Stage): nat {
    match stage
    case Receiving(_, _) => 3
    case ReceivingFrom(_, _, _) => 2
    case ReceivingAs(_, _, _, _) => 1
    case _ => 0
  }

  /** The RTP task is done with its packet, and nothing else has moved. */
  predicate Drained(s: State, t: State) {
    && t == s.(rtp := t.rtp)
    && t.rtp == s.rtp.(readers := t.rtp.readers, packets := t.rtp.packets)
    && NoReceiver(t) && NoWrap(t)
    && (forall id :: id in s.rtp.readers && IsSender(s.rtp.readers[id].stage) ==>
          id in t.rtp.readers && t.rtp.readers[id] == s.rtp.readers[id])
  }

  lemma DrainedIs(s: State, t: State)
    requires Drained(s, t)
    ensures t == s.(rtp := t.rtp) && t.rtp == s.rtp.(readers := t.rtp.readers, packets := t.rtp.packets)
    ensures NoReceiver(t) && NoWrap(t)
  {
  }

  lemma {:induction false} DrainsOne(s: State, id: nat) returns (ls: seq<Label>)
    requires NoWrap(s) && OneReceiver(s.rtp.readers) && id in s.rtp.readers && !IsSender(s.rtp.readers[id].stage)
    ensures Orderly(s, ls) && Drained(s, Run(s, ls))
    decreases Remaining(s.rtp.readers[id].stage)
  {
    var r := s.rtp.readers[id];
    var t := StepReader(s, id);
    var next := NextStage(s, r);
    assert Step(s, ReaderStep(id)) == t;
    assert t == s.(rtp := t.rtp) && t.rtp == s.rtp.(readers := t.rtp.readers, packets := t.rtp.packets);
    assert next.Some? ==> !IsSender(next.value) && Remaining(next.value) < Remaining(r.stage);
    hide Step, NextStage, Emitted, Orderly, Run, Hazard;
    if next.None? {
      assert Drained(s, t);
      Ends(t);
      ls := Earlier(s, ReaderStep(id), []);
    } else {
      ls := DrainsOne(t, id);
      ls := Earlier(s, ReaderStep(id), ls);
    }
  }

  lemma Drains(s: State) returns (ls: seq<Label>)
    requires NoWrap(s) && OneReceiver(s.rtp.readers)
    ensures Orderly(s, ls) && Drained(s, Run(s, ls))
  {
    if id :| id in s.rtp.readers && !IsSender(s.rtp.readers[id].stage) {
      ls := DrainsOne(s, id);
    } else {
      Ends(s);
      ls := [];
    }
  }

  /** The RTP path runs, or at least the RTP task is still in its loop. */
  function OnAir(s: State): (t: State)
    ensures t == s.(rtp := t.rtp) && t.rtp.looping && t.rtp.readers == s.rtp.readers && t.rtp.packets == s.rtp.packets
  {
    if s.rtp.looping then s else s.(rtp := s.rtp.(running := true, looping := true))
  }

  lemma GoesOnAir(s: State)
    requires !s.scope.Writing? && !s.scope.WritingIp?
    ensures Step(s, RtpStart) == OnAir(s)
  {
  }

  /** What a receiver of this epoch and configuration reads. */
  lemma ReceiverReads(s: State, r: Reader)
    requires r.stage.Receiving? || r.stage.ReceivingFrom?
    ensures r.stage.Receiving? && s.log.stable != [] && (s.live.ip == 0 || r.stage.source == s.live.ip) ==>
              && NextStage(s, r) == Some(ReceivingFrom(r.stage.source, r.stage.payloadType, s.live.ip))
              && FirstRead(s, r) == |s.log.stable| - 1
    ensures r.stage.ReceivingFrom? && r.stage.payloadType in s.live.media.rxFormats ==>
              && NextStage(s, r) == Some(ReceivingAs(r.stage.source, r.stage.payloadType, r.stage.expected,
                                                     s.live.media.rxFormats[r.stage.payloadType]))
              && FirstRead(s, r) == r.index
    ensures Emitted(s, r) == []
  {
  }

  /** One that has passed its address check goes through the rest of its stages undisturbed. */
  lemma ReceiverEnds(s: State, id: nat, r: Reader) returns (ls: seq<Label>)
    requires NoWrap(s) && id !in s.rtp.readers && r.count == s.count
    requires r.stage.ReceivingFrom? && r.stage.payloadType in s.live.media.rxFormats
    ensures NoWrap(With(s, id, r)) && Orderly(With(s, id, r), ls)
    ensures Run(With(s, id, r), ls)
            == s.(rtp := s.rtp.(packets := s.rtp.packets
                                + [ReceivedBy(s, r.stage.source, r.stage.payloadType,
                                              s.live.media.rxFormats[r.stage.payloadType], r.index)]))
  {
    var source, pt, format := r.stage.source, r.stage.payloadType, s.live.media.rxFormats[r.stage.payloadType];
    var found := r.(stage := ReceivingAs(source, pt, r.stage.expected, format));
    var t := s.(rtp := s.rtp.(packets := s.rtp.packets + [ReceivedBy(s, source, pt, format, r.index)]));
    assert Harmless(ReaderStep(id));
    hide *;
    ReceiverReads(s, r);
    ReaderMoves(s, id, r, found.stage);
    EmitsReceived(s, found);
    WithWithin(s, id, r);
    WithWithin(s, id, found);
    ReaderEnds(s, id, found);
    SameReaders(s, t);
    Ends(t);
    ls := Earlier(With(s, id, found), ReaderStep(id), []);
    ls := Earlier(With(s, id, r), ReaderStep(id), ls);
  }

  /** An undisturbed receiver goes through all its stages. */
  lemma ReceiverFinishes(s: State, id: nat, source: u32, pt: byte) returns (ls: seq<Label>)
    requires s.log.stable != [] && s.count % 2 == 0 && id !in s.rtp.readers && NoWrap(s)
    requires s.rtp.looping && s.rtp.active && NoReceiver(s)
    requires (s.live.ip == 0 || source == s.live.ip) && pt in s.live.media.rxFormats
    ensures Orderly(s, ls)
    ensures Run(s, ls)
            == s.(rtp := s.rtp.(packets :=
                 s.rtp.packets + [ReceivedBy(s, source, pt, s.live.media.rxFormats[pt], |s.log.stable| - 1)]))
  {
    var first := Now(s, Receiving(source, pt));
    var from := Now(s, ReceivingFrom(source, pt, s.live.ip));
    assert Harmless(StartReceiving(id, source, pt)) && Harmless(ReaderStep(id));
    assert first == Reader(s.count, |s.log.stable| - 1, Receiving(source, pt));
    assert from == first.(stage := ReceivingFrom(source, pt, s.live.ip));
    hide *;
    ReceiverReads(s, first);
    ReceiverStarts(s, id, source, pt);
    ReaderMoves(s, id, first, from.stage);
    WithWithin(s, id, first);
    ls := ReceiverEnds(s, id, from);
    ls := Earlier(With(s, id, first), ReaderStep(id), ls);
    ls := Earlier(s, StartReceiving(id, source, pt), ls);
  }
}
