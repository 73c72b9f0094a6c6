/**
 When a media proposal opens inside a REFER scope. A 491 to our own video re-INVITE schedules one retry; `pump_refer_`
 opens a REFER scope round the same pump that sends it (esphome/components/voip_stack/sip_refer.cpp,
 `pump_video_direction_transaction_` in sip_transport.cpp), so the retry carries the Call-ID, tags and CSeq of the
 dialog that is retiring. Its 2xx is handled in a REFER scope, and the proposal it opens makes the epoch even. A commit
 while our own re-INVITE is outstanding leads to the same; the media are opened after it.
 */
module MediaGlare {
  import opened Machine
  import opened MediaEpoch
  import opened MediaRuns

  /** The media do not give payload type 0 this format. */
  predicate Unlike(format: u32, m: Media) {
    !(0 in m.rxFormats && m.rxFormats[0] == format)
  }

  function Parsed(format: u32): Media {
    Media(0, 0, map[0 := format])
  }

  /** A proposal inside a REFER scope has parsed its media, and the RTP task receives a packet. */
  lemma InsideMixes(s: State, format: u32) returns (ls: seq<Label>)
    requires s.scope.Proposing? && s.count % 2 == 0 && s.log.stable != [] && NoWrap(s)
    requires s.rtp.active && OneReceiver(s.rtp.readers)
    ensures Orderly(s, ls)
    ensures var t := Run(s, ls);
            && t.log.stable == s.log.stable && t.scope == s.scope && Epoch(t) % 2 == 0
            && Received(s.live.ip, 0, format, |s.log.stable| - 1, |s.log.stable|) in t.rtp.packets
  {
    assert Harmless(RtpStart) && Harmless(WriteMedia(Parsed(format)));
    hide *;
    var first := Drains(s);
    var d := Run(s, first);
    DrainedIs(s, d);
    var id := UnusedId(d.rtp.readers.Keys);
    var a := OnAir(d);
    var b := a.(live := a.live.(media := Parsed(format)));
    GoesOnAir(d);
    Parses(a, format);
    SameReaders(d, a);
    SameReaders(d, b);
    ls := ReceiverFinishes(b, id, s.live.ip, 0);
    ls := Earlier(a, WriteMedia(Parsed(format)), ls);
    ls := Earlier(d, RtpStart, ls);
    RunsJoin(s, first, ls);
    ls := first + ls;
    ReceivedIs(b, s.live.ip, format, |s.log.stable| - 1);
    EvenEpoch(Run(s, ls));
  }

  lemma Parses(s: State, format: u32)
    requires s.scope.Proposing?
    ensures Step(s, WriteMedia(Parsed(format))) == s.(live := s.live.(media := Parsed(format)))
    ensures 0 in Parsed(format).rxFormats && Parsed(format).rxFormats[0] == format
  {
  }

  lemma ReceivedIs(s: State, source: u32, format: u32, index: nat)
    ensures ReceivedBy(s, source, 0, format, index) == Received(source, 0, format, index, |s.log.stable|)
  {
  }

  /** The answer's scope open, and the answer's proposal open inside it. */
  function Nested(s: State): State {
    s.(count := s.count + 2, live := s.candidate, scope := Proposing(s.candidate, Some(s.live)),
       sip := s.sip.(own := NoOwn))
  }

  lemma AnswerOpensInside(s: State)
    requires s.sip.own.Outstanding? && s.sip.own.dialog == s.sip.candidate
    ensures Step(Entered(s), OpenAnswer) == Nested(s)
  {
  }

  /** Our own re-INVITE is outstanding on the dialog that is in place in a REFER scope. */
  predicate OnCandidate(s: State) {
    && s.scope.Idle? && s.count % 2 == 0 && s.log.stable != [] && !s.sip.transfer.NoTransfer?
    && s.sip.own.Outstanding? && s.sip.own.dialog == s.sip.candidate
  }

  /** Its answer opens a proposal inside the scope, and a packet with the half-parsed media gets through. */
  lemma AnswerMixes(s: State, format: u32) returns (ls: seq<Label>)
    requires OnCandidate(s) && NoWrap(s) && NoWrap(Entered(s)) && NoWrap(Nested(s))
    requires s.rtp.active && OneReceiver(s.rtp.readers)
    ensures Orderly(s, ls)
    ensures var t := Run(s, ls);
            && t.log.stable == s.log.stable && Epoch(t) % 2 == 0 && t.scope.Proposing? && t.scope.outer.Some?
            && Received(s.candidate.ip, 0, format, |s.log.stable| - 1, |s.log.stable|) in t.rtp.packets
  {
    hide Step, Hazard, Orderly, Run, NoWrap, Epoch;
    Enters(s);
    AnswerOpensInside(s);
    ls := InsideMixes(Nested(s), format);
    ls := Earlier(Entered(s), OpenAnswer, ls);
    RunsJoin(s, Entering(), ls);
    ls := Entering() + ls;
  }

  lemma Unexplained(s: State, p: Packet)
    requires s.log.stable != [] && p.Received? && p.index == |s.log.stable| - 1 && p.until == |s.log.stable|
    requires p.payloadType == 0 && Unlike(p.format, Last(s).media) && p in s.rtp.packets
    ensures !PacketsFromOne(s)
  {
    var i :| 0 <= i < |s.rtp.packets| && s.rtp.packets[i] == p;
    assert !FromOne(s.rtp.packets[i], s.log.stable);
  }

  // ---------- Exactly when a retry leads there ----------

  /** The REFER scope is pumped, with the retry due and sent if one is waiting. */
  function Pumped(s: State): State {
    Step(s, Signalled(RetryDue(true)))
  }

  lemma RetryGoesOut(s: State)
    requires Inv(s) && s.scope.InRefer? && s.sip.own.WaitingRetry? && s.rtp.active
    ensures Pumped(s) == s.(sip := s.sip.(own := Outstanding(s.sip.candidate, true)))
    ensures OnCandidate(Left(Pumped(s)))
  {
    hide ReadersHold, PacketsFromOne, ChangesInv;
  }

  /** From every state in which a REFER scope sends the retry, an orderly run gets a packet through the half-parsed answer. */
  lemma RetryInScopeMixes(s: State, format: u32) returns (ls: seq<Label>)
    requires Inv(s) && s.scope.InRefer? && s.sip.own.WaitingRetry? && s.rtp.active && Roomy(s)
    ensures Orderly(Pumped(s), ls)
    ensures var t := Run(Pumped(s), ls);
            && t.log.stable == s.log.stable + [s.scope.other]
            && Received(s.live.ip, 0, format, |s.log.stable|, |s.log.stable| + 1) in t.rtp.packets
            && Epoch(t) % 2 == 0 && t.scope.Proposing? && t.scope.outer.Some?
  {
    RetryGoesOut(s);
    var t := Pumped(s);
    assert NoWrap(t) && NoWrap(Left(t)) && NoWrap(Entered(Left(t))) && NoWrap(Nested(Left(t)));
    hide Inv, Step, Hazard, Pumped, Orderly, Run, NoWrap, Roomy, Epoch, OnCandidate;
    Leaves(t);
    ls := AnswerMixes(Left(t), format);
    RunsJoin(t, Leaving(), ls);
    ls := Leaving() + ls;
  }

  /**
   After a REFER scope is pumped, some orderly continuation builds a packet from no stable configuration in force if and
   only if a retry of our own re-INVITE was waiting and media were active.
   */
  lemma MixesIffRetryWaits(s: State)
    requires Inv(s) && s.scope.InRefer? && Roomy(s)
    ensures MixesAfter(Pumped(s)) <==> s.sip.own.WaitingRetry? && s.rtp.active
  {
    if s.sip.own.WaitingRetry? && s.rtp.active {
      var format := if Unlike(0, s.scope.other.media) then 0 else 1;
      var ls := RetryInScopeMixes(s, format);
      var t := Run(Pumped(s), ls);
      Unexplained(t, Received(s.live.ip, 0, format, |s.log.stable|, |s.log.stable| + 1));
    } else {
      assert NoWrap(s);
      SafeStep(s, Signalled(RetryDue(true)));
    }
  }

  // ---------- And a commit ----------

  function Committed(s: State): State {
    Step(s, Advance(true))
  }

  lemma CommitLeavesItOutstanding(s: State)
    requires Inv(s) && CommitsOutstanding(s, Advance(true))
    ensures var c, d := Committed(s), Step(Committed(s), Advance(false)); var e := Step(d, MediaOpens);
            && OnCandidate(e) && e.log.stable == s.log.stable + [s.live] && e.candidate == s.scope.other
            && c.rtp == d.rtp == s.rtp && e.rtp == s.rtp.(active := true)
            && c.count == s.count && d.count == e.count == s.count + 1 && !Hazard(c, Advance(false))
  {
    hide ReadersHold, PacketsFromOne, ChangesInv;
  }

  /** A commit has such a continuation if and only if our own re-INVITE is outstanding on the dialog that retires. */
  lemma MixesIffOutstanding(s: State)
    requires Inv(s) && s.scope.InRefer? && s.sip.transfer.Pending? && Roomy(s)
    ensures MixesAfter(Committed(s)) <==> s.sip.own.Outstanding? && s.sip.own.dialog == s.sip.owner
  {
    if CommitsOutstanding(s, Advance(true)) {
      CommitLeavesItOutstanding(s);
      var c := Committed(s);
      var d := Step(c, Advance(false));
      var e := Step(d, MediaOpens);
      var format := if Unlike(0, s.live.media) then 0 else 1;
      assert NoWrap(c) && NoWrap(d) && NoWrap(e) && NoWrap(Entered(e)) && NoWrap(Nested(e));
      hide Inv, Step, Committed, Hazard, Orderly, Run, NoWrap, Roomy, OnCandidate;
      var ls := AnswerMixes(e, format);
      Unexplained(Run(e, ls), Received(s.scope.other.ip, 0, format, |s.log.stable|, |s.log.stable| + 1));
      ls := Earlier(d, MediaOpens, ls);
      ls := Earlier(c, Advance(false), ls);
    } else {
      assert NoWrap(s);
      SafeStep(s, Advance(true));
    }
  }

  // ---------- A run of one call ----------

  /** The candidate's INVITE is answered, and its scope commits. */
  function Accepted(): seq<Label> {
    [Signalled(Invites), Signalled(Answered), Advance(true), Advance(false)]
  }

  /** A REFER arrives in an audio call, and its candidate takes over. */
  function Handover(target: Config): seq<Label> {
    [ReferArrives(target)] + (Entering() + Accepted())
  }

  /** The signalling after the hand-over: the old dialog retires. */
  const RETIRING_OWNER := Sip(NoOwn, false, Retiring, 2, 0, 3, Recorded, Incoming(false))

  function HandedOver(config: Config, candidate: Config, target: Config): State {
    State(2, target, Idle, config, Rtp(false, false, true, map[], []), Log([config, target], {0}, {}), RETIRING_OWNER)
  }

  function Referred(config: Config, candidate: Config, target: Config): State {
    Step(Initial(config, candidate, false), ReferArrives(target))
  }

  lemma Accepts(config: Config, candidate: Config, target: Config)
    ensures var b := Entered(Referred(config, candidate, target));
            NoWrap(b) && Orderly(b, Accepted()) && Run(b, Accepted()) == HandedOver(config, candidate, target)
  {
    var b, t := Entered(Referred(config, candidate, target)), HandedOver(config, candidate, target);
    var c := Step(b, Signalled(Invites));
    var d := Step(c, Signalled(Answered));
    var e := Step(d, Advance(true));
    assert Step(e, Advance(false)) == t;
    assert NoWrap(b) && NoWrap(c) && NoWrap(d) && NoWrap(e) && NoWrap(t);
    assert Harmless(Signalled(Invites)) && Harmless(Signalled(Answered)) && Harmless(Advance(false));
    assert !Hazard(d, Advance(true));
    assert Accepted() == [Signalled(Invites), Signalled(Answered), Advance(true), Advance(false)];
    hide *;
    Ends(t);
    var ls := Earlier(e, Advance(false), []);
    ls := Earlier(d, Advance(true), ls);
    ls := Earlier(c, Signalled(Answered), ls);
    ls := Earlier(b, Signalled(Invites), ls);
    assert ls == Accepted();
  }

  lemma HandsOver(config: Config, candidate: Config, target: Config)
    ensures Orderly(Initial(config, candidate, false), Handover(target))
    ensures Run(Initial(config, candidate, false), Handover(target)) == HandedOver(config, candidate, target)
  {
    var s, a := Initial(config, candidate, false), Referred(config, candidate, target);
    assert a.scope.Idle? && !a.sip.transfer.NoTransfer? && NoWrap(s) && NoWrap(a) && Harmless(ReferArrives(target));
    assert a == Step(s, ReferArrives(target)) && Handover(target) == [ReferArrives(target)] + (Entering() + Accepted());
    hide *;
    Accepts(config, candidate, target);
    Enters(a);
    RunsJoin(a, Entering(), Accepted());
    var ls := Earlier(s, ReferArrives(target), Entering() + Accepted());
  }

  /** The new peer adds video, our own re-INVITE meets 491, and the next pump opens a REFER scope for the old dialog. */
  function GlareThenPump(): seq<Label> {
    [Signalled(VideoNegotiated(true)), Signalled(Requested), Signalled(Glare)] + Entering()
  }

  lemma Glares(s: State)
    requires s.scope.Idle? && s.rtp.readers == map[] && s.rtp.active && s.sip == RETIRING_OWNER
    ensures Orderly(s, GlareThenPump())
    ensures Run(s, GlareThenPump()) == Entered(s.(sip := RETIRING_OWNER.(own := WaitingRetry, video := true)))
  {
    var a := Step(s, Signalled(VideoNegotiated(true)));
    var b := Step(a, Signalled(Requested));
    var c := Step(b, Signalled(Glare));
    assert c == s.(sip := RETIRING_OWNER.(own := WaitingRetry, video := true));
    hide Step, Hazard, Orderly, Run;
    Enters(c);
    var ls := Earlier(b, Signalled(Glare), Entering());
    ls := Earlier(a, Signalled(Requested), ls);
    ls := Earlier(s, Signalled(VideoNegotiated(true)), ls);
    assert ls == GlareThenPump();
  }

  /**
   From the start of an audio call: a REFER is accepted and committed, the new peer adds video, our own re-INVITE meets
   491, the retry falls due while the old dialog's scope is pumped, and a packet gets through that belongs to no stable
   configuration of the call, while the epoch is even inside the scope.
   */
  lemma GlareMixesConfigurations(config: Config, candidate: Config, target: Config, format: u32)
    returns (before: seq<Label>, after: seq<Label>)
    requires Unlike(format, config.media) && Unlike(format, target.media)
    ensures Orderly(Initial(config, candidate, false), before)
    ensures RetriesInScope(Run(Initial(config, candidate, false), before), Signalled(RetryDue(true)))
    ensures Orderly(Pumped(Run(Initial(config, candidate, false), before)), after)
    ensures var t := Run(Pumped(Run(Initial(config, candidate, false), before)), after);
            && Epoch(t) % 2 == 0 && !Unscoped(t.scope)
            && (exists p :: p in t.rtp.packets && forall c :: c in t.log.stable ==> !Built(p, c))
  {
    var s := Initial(config, candidate, false);
    HandsOver(config, candidate, target);
    var h := Run(s, Handover(target));
    Glares(h);
    var g := Run(h, GlareThenPump());
    RunsJoin(s, Handover(target), GlareThenPump());
    before := Handover(target) + GlareThenPump();
    assert Run(s, before) == g;
    assert g.log.stable == [config, target] && g.scope.other == target;
    InitialInv(config, candidate, false);
    RunKeeps(s, before);
    after := RetryInScopeMixes(g, format);
    var t := Run(Pumped(g), after);
    assert Received(g.live.ip, 0, format, 2, 3) in t.rtp.packets;
    assert t.log.stable == [config, target, target];
  }
}
