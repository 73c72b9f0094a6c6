/**
 When the callee hangs up: the INVITE server transaction, its ACK and the BYE in
 esphome/components/voip_stack/sip_transport.cpp (RFC 3261 sections 13.3.1.4, 14.2 and 15). Messages are taken after
 parsing; `now` is the clock in milliseconds without wrap-around.
 */
module UasDialog {
  import opened Machine

  const TIMEOUT: nat := 32000

  /** The cached final response to an INVITE (`completed_invite_`). */
  datatype Completed = Completed(callId: string, cseq: nat, branch: string, status: nat, sentAt: nat, udp: bool, awaitingAck: bool)

  /** A BYE on the wire; `early` says that the 2xx to this dialog's last INVITE was still neither acknowledged nor given up. */
  datatype Bye = Bye(callId: string, early: bool)

  /** An accepted INVITE whose 2xx is unacknowledged; history only, no code reads it. */
  datatype Owed = Owed(cseq: nat, sentAt: nat)

  datatype Dialog = Dialog(
    callId: string,
    lastCseq: nat,
    lastBranch: string,
    remoteCseq: nat,
    mediaActive: bool,
    tcp: bool,
    completed: Option<Completed>,
    terminateAfterAck: bool,
    byePending: bool,
    now: nat,
    owed: Option<Owed>,
    byes: seq<Bye>)

  const INITIAL := Dialog("", 0, "", 0, false, false, None, false, false, 0, None, [])

  predicate AwaitingAck(d: Dialog) {
    d.completed.Some? && d.completed.value.awaitingAck
  }

  /** `terminal_transaction_pending_locked_`, as far as these transactions go. */
  predicate TerminalPending(d: Dialog) {
    d.byePending || AwaitingAck(d) || d.terminateAfterAck
  }

  /** `reset_dialog_`; the cached response survives. */
  function Reset(d: Dialog): Dialog {
    d.(callId := "", lastCseq := 0, lastBranch := "", remoteCseq := 0, mediaActive := false,
       terminateAfterAck := false, byePending := false, owed := None)
  }

  /** `remember_completed_response_`, for an INVITE: an unacknowledged response of the dialog's own keeps its place. */
  function Remember(d: Dialog, callId: string, cseq: nat, branch: string, status: nat): Dialog {
    if AwaitingAck(d) && d.completed.value.callId == d.callId && d.lastCseq != 0
       && (d.completed.value.callId != callId || d.completed.value.cseq != cseq || d.completed.value.branch != branch)
    then d
    else d.(completed := Some(Completed(callId, cseq, branch, status, d.now, !d.tcp, true)))
  }

  predicate Success(status: nat) {
    200 <= status < 300
  }

  /** `send_response_` with a final status, to the dialog's own INVITE. */
  function Respond(d: Dialog, status: nat): Dialog {
    Remember(d, d.callId, d.lastCseq, d.lastBranch, status)
      .(owed := if Success(status) then Some(Owed(d.lastCseq, d.now)) else None)
  }

  /** The guard of `defer_bye_until_uas_ack_locked_`. */
  predicate MustDefer(d: Dialog) {
    && AwaitingAck(d) && Success(d.completed.value.status)
    && d.callId != "" && d.completed.value.callId == d.callId && d.lastCseq == d.completed.value.cseq
  }

  predicate Early(d: Dialog) {
    d.owed.Some? && d.now < d.owed.value.sentAt + TIMEOUT
  }

  /** `send_bye_unlocked_`. */
  function SendBye(d: Dialog): Dialog {
    if d.callId == "" then d
    else if MustDefer(d) then d.(terminateAfterAck := true)
    else d.(byePending := true, byes := d.byes + [Bye(d.callId, Early(d))])
  }

  // ---------- Events ----------

  /** How an INVITE is met once it may be: ringing, or refused with a final status; a re-INVITE may be accepted. */
  datatype Verdict = Ring | Accept | Refuse(status: nat)

  datatype Event =
    | Invite(callId: string, cseq: nat, branch: string, inDialog: bool, tcp: bool, verdict: Verdict)
    | Answer(delayedOffer: bool)
    | Decline(status: nat)
    | Cancel
    | Ack(callId: string, cseq: nat, matches: bool, answerAccepted: bool)
    | HangUp
    | RemoteBye
    | ByeDone
    | Pump(elapsed: nat)
    | TcpLoss
    | Call(callId: string, tcp: bool)
    | CallAccepted

  predicate Replays(d: Dialog, callId: string, cseq: nat, branch: string) {
    && d.completed.Some? && d.now - d.completed.value.sentAt <= TIMEOUT
    && d.completed.value.callId == callId && d.completed.value.cseq == cseq
    && (d.completed.value.branch == "" || d.completed.value.branch == branch)
  }

  /** `handle_reinvite_`. */
  function Reinvite(d: Dialog, cseq: nat, branch: string, verdict: Verdict): Dialog {
    if !d.mediaActive then Remember(d, d.callId, cseq, branch, 481)
    else if AwaitingAck(d) then d
    else if cseq <= d.remoteCseq then Remember(d, d.callId, cseq, branch, 500)
    else if verdict.Accept? then
      Respond(d.(lastCseq := cseq, lastBranch := branch, remoteCseq := cseq), 200)
    else if verdict.Refuse? && verdict.status >= 300 then Remember(d, d.callId, cseq, branch, verdict.status)
    else d
  }

  /** `handle_invite_`. */
  function HandleInvite(d: Dialog, e: Event): Dialog
    requires e.Invite?
  {
    if e.callId == "" || e.cseq == 0 || Replays(d, e.callId, e.cseq, e.branch) || TerminalPending(d) then d
    else if d.callId != "" && e.callId != d.callId then Remember(d, e.callId, e.cseq, e.branch, 486)
    else if d.callId != "" && e.inDialog then
      if e.cseq == d.lastCseq && e.branch != d.lastBranch then d else Reinvite(d, e.cseq, e.branch, e.verdict)
    else if d.callId != "" then d
    else
      var born := Reset(d).(callId := e.callId, lastCseq := e.cseq, lastBranch := e.branch, remoteCseq := e.cseq, tcp := e.tcp);
      if e.verdict.Refuse? && e.verdict.status >= 300 then Reset(Respond(born, e.verdict.status)) else born
  }

  /** The ACK branch: `acknowledge_completed_invite_` and what follows it. `matches` stands for peer, transport and tags. */
  function HandleAck(d: Dialog, e: Event): Dialog
    requires e.Ack?
  {
    if d.completed.None? then d
    else if d.now >= d.completed.value.sentAt + TIMEOUT then d.(completed := None)
    else if e.cseq != d.completed.value.cseq || e.callId != d.completed.value.callId || !e.matches then d
    else
      var acked := d.(completed := Some(d.completed.value.(awaitingAck := false)),
                      owed := if e.callId == d.callId && d.owed.Some? && d.owed.value.cseq == e.cseq then None else d.owed);
      if !Success(d.completed.value.status) then acked
      else if d.terminateAfterAck then SendBye(acked.(terminateAfterAck := false))
      else if d.callId != e.callId || d.lastCseq != e.cseq || d.byePending then acked
      else if !e.answerAccepted then SendBye(acked)
      else acked.(mediaActive := true)
  }

  /** `pump_udp_retransmits_unlocked_`, as far as the ACK deadline and the life of the cached response go. */
  function HandlePump(d: Dialog, elapsed: nat): Dialog {
    var later := d.(now := d.now + elapsed);
    var due := later.completed.Some? && later.now >= later.completed.value.sentAt + TIMEOUT;
    var givenUp := if due && AwaitingAck(later) then later.(completed := Some(later.completed.value.(awaitingAck := false))) else later;
    var hangsUp := due && AwaitingAck(later) && MustDefer(later);
    var expired := if due then givenUp.(completed := None) else givenUp;
    if hangsUp then SendBye(expired.(terminateAfterAck := false)) else expired
  }

  /** `close_tcp_dialog_`. */
  function HandleTcpLoss(d: Dialog): Dialog {
    var lost := d.tcp && (d.callId != "" || d.mediaActive || TerminalPending(d));
    var cleared := if d.completed.Some? && !d.completed.value.udp then d.(completed := None, terminateAfterAck := false, owed := None) else d;
    if lost then Reset(cleared.(tcp := false)) else cleared.(tcp := false)
  }

  function Step(d: Dialog, e: Event): Dialog {
    match e
    case Invite(_, _, _, _, _, _) => HandleInvite(d, e)
    case Answer(delayedOffer) =>
      if d.callId == "" || d.lastCseq == 0 || d.byePending then d
      else
        var answered := Respond(d, 200);
        if delayedOffer then answered else answered.(mediaActive := true)
    case Decline(status) => if d.callId == "" || status < 300 then d else Reset(Respond(d, status))
    case Cancel => if d.callId == "" || d.mediaActive || d.lastCseq == 0 then d else Reset(Respond(d, 487))
    case Ack(_, _, _, _) => HandleAck(d, e)
    case HangUp => SendBye(d)
    case RemoteBye => if d.callId != "" && d.mediaActive && !d.byePending then Reset(d) else d
    case ByeDone => if d.byePending then Reset(d) else d
    case Pump(elapsed) => HandlePump(d, elapsed)
    case TcpLoss => HandleTcpLoss(d)
    case Call(callId, tcp) =>
      if callId == "" || TerminalPending(d) then d else Reset(d).(callId := callId, tcp := tcp)
    case CallAccepted => if d.callId == "" || d.lastCseq != 0 || d.byePending then d else d.(mediaActive := true)
  }

  function Run(d: Dialog, events: seq<Event>): Dialog
    decreases |events|
  {
    if events == [] then d else Run(Step(d, events[0]), events[1..])
  }

  // ---------- BYE discipline ----------

  /**
   The dialog's own earlier response still awaits its ACK, and it is not the response to the INVITE at hand: what
   `remember_completed_response_` will not replace.
   */
  predicate Blocked(d: Dialog) {
    && AwaitingAck(d) && d.completed.value.callId == d.callId && d.lastCseq != 0
    && (d.completed.value.cseq != d.lastCseq || d.completed.value.branch != d.lastBranch)
  }

  /** While a 2xx is owed an ACK and not given up, its cached response is in place and awaits it. */
  predicate OwedInv(d: Dialog) {
    d.owed.Some? ==>
      && d.callId != "" && d.lastCseq != 0 && d.owed.value.cseq == d.lastCseq && d.owed.value.sentAt <= d.now
      && (Early(d) ==> MustDefer(d) && d.completed.value.sentAt == d.owed.value.sentAt)
  }

  predicate Punctual(byes: seq<Bye>) {
    forall i :: 0 <= i < |byes| ==> !byes[i].early
  }

  /** A cached 2xx that awaits its ACK in the dialog answers the dialog's last INVITE. */
  predicate RecordInv(d: Dialog) {
    d.completed.Some? ==>
      && d.completed.value.sentAt <= d.now && d.completed.value.callId != ""
      && (AwaitingAck(d) && Success(d.completed.value.status) && d.completed.value.callId == d.callId ==>
            d.lastCseq != 0 && d.completed.value.cseq == d.lastCseq && d.completed.value.branch == d.lastBranch)
  }

  predicate Inv(d: Dialog) {
    && RecordInv(d)
    && OwedInv(d) && Punctual(d.byes)
  }

  /** A 2xx is not sent while the cache is blocked. */
  predicate Clear(d: Dialog, e: Event) {
    e.Answer? && d.callId != "" && d.lastCseq != 0 && !d.byePending ==> !Blocked(d)
  }

  lemma RespondKeeps(d: Dialog, status: nat)
    requires Inv(d) && d.callId != "" && d.lastCseq != 0 && !Blocked(d) && Success(status)
    ensures Inv(Respond(d, status))
  {
    hide Punctual;
  }

  lemma ByeKeeps(d: Dialog)
    requires Inv(d)
    ensures Inv(SendBye(d))
  {
  }

  lemma ResetKeeps(d: Dialog)
    requires Punctual(d.byes) && RecordInv(d)
    ensures Inv(Reset(d))
  {
    hide Punctual;
  }

  lemma InviteKeeps(d: Dialog, e: Event)
    requires Inv(d) && e.Invite?
    ensures Inv(HandleInvite(d, e))
  {
    hide Punctual, Replays;
    assert !TerminalPending(d) ==> d.owed.None? || !Early(d);
  }

  lemma AckKeeps(d: Dialog, e: Event)
    requires Inv(d) && e.Ack?
    ensures Inv(HandleAck(d, e))
  {
    if d.completed.Some? && d.now < d.completed.value.sentAt + TIMEOUT && e.cseq == d.completed.value.cseq
       && e.callId == d.completed.value.callId && e.matches
    {
      var acked := d.(completed := Some(d.completed.value.(awaitingAck := false)),
                      owed := if e.callId == d.callId && d.owed.Some? && d.owed.value.cseq == e.cseq then None else d.owed);
      assert Inv(acked);
      ByeKeeps(acked);
      ByeKeeps(acked.(terminateAfterAck := false));
    }
    hide Punctual;
  }

  lemma PumpKeeps(d: Dialog, elapsed: nat)
    requires Inv(d)
    ensures Inv(HandlePump(d, elapsed))
  {
    var later := d.(now := d.now + elapsed);
    assert Inv(later);
    if later.completed.Some? && later.now >= later.completed.value.sentAt + TIMEOUT {
      var expired := later.(completed := None);
      assert Inv(expired);
      ByeKeeps(expired.(terminateAfterAck := false));
    }
    hide Punctual;
  }

  lemma StepKeeps(d: Dialog, e: Event)
    requires Inv(d) && Clear(d, e)
    ensures Inv(Step(d, e))
  {
    match e {
      case Invite(_, _, _, _, _, _) => InviteKeeps(d, e);
      case Answer(_) =>
        if d.callId != "" && d.lastCseq != 0 && !d.byePending {
          RespondKeeps(d, 200);
        }
      case Ack(_, _, _, _) => AckKeeps(d, e);
      case HangUp => ByeKeeps(d);
      case Pump(elapsed) => PumpKeeps(d, elapsed);
      case _ => hide Punctual;
    }
  }

  predicate AllClear(d: Dialog, events: seq<Event>)
    decreases |events|
  {
    events == [] || (Clear(d, events[0]) && AllClear(Step(d, events[0]), events[1..]))
  }

  lemma {:induction false} RunKeeps(d: Dialog, events: seq<Event>)
    requires Inv(d) && AllClear(d, events)
    ensures Inv(Run(d, events))
    decreases |events|
  {
    if events != [] {
      StepKeeps(d, events[0]);
      hide Inv, Step, Clear;
      RunKeeps(Step(d, events[0]), events[1..]);
    }
  }

  /**
   In every run, with colliding INVITEs, re-INVITEs, late and foreign ACKs and local hang-ups at any time, in which no
   call is answered while the response cache is blocked, no BYE goes out for a dialog whose last INVITE was answered
   with a 2xx until that 2xx is acknowledged, 64*T1 have passed, or the TCP connection it came on is lost.
   */
  lemma NoEarlyBye(events: seq<Event>, i: nat)
    requires AllClear(INITIAL, events) && i < |Run(INITIAL, events).byes|
    ensures !Run(INITIAL, events).byes[i].early
  {
    RunKeeps(INITIAL, events);
  }

  /** Answering and hanging up at once puts an early BYE on the wire exactly when the cache was blocked. */
  lemma EarlyIffBlocked(d: Dialog, delayedOffer: bool)
    requires Inv(d) && d.callId != "" && d.lastCseq != 0 && !d.byePending
    ensures var after := Step(Step(d, Answer(delayedOffer)), HangUp);
            (exists i :: 0 <= i < |after.byes| && after.byes[i].early) <==> Blocked(d)
  {
    var answered := Step(d, Answer(delayedOffer));
    var after := Step(answered, HangUp);
    if Blocked(d) {
      assert after.byes == d.byes + [Bye(d.callId, true)];
      assert after.byes[|d.byes|].early;
    } else {
      RespondKeeps(d, 200);
      ByeKeeps(answered);
    }
  }

  /**
   The cache can be blocked: a second INVITE in the early dialog is refused with a cached 481, and the answer to the
   first one is then not remembered, so a hang-up before any ACK is not held back.
   */
  lemma RefusedReinviteBlocks()
    ensures var events := [Invite("x", 1, "a", false, false, Ring), Invite("x", 2, "b", true, false, Ring), Answer(false), HangUp];
            Run(INITIAL, events).byes == [Bye("x", true)]
  {
    var ringing := Step(INITIAL, Invite("x", 1, "a", false, false, Ring));
    var refused := Step(ringing, Invite("x", 2, "b", true, false, Ring));
    var answered := Step(refused, Answer(false));
    var over := Step(answered, HangUp);
    assert over.byes == [Bye("x", true)];
    hide Step;
    assert Run(over, []) == over;
    assert Run(answered, [HangUp]) == over;
    assert Run(refused, [Answer(false), HangUp]) == Run(answered, [HangUp]) by {
      assert [Answer(false), HangUp][1..] == [HangUp];
    }
    var last := [Invite("x", 2, "b", true, false, Ring), Answer(false), HangUp];
    assert last[1..] == [Answer(false), HangUp];
    assert Run(ringing, last) == Run(refused, [Answer(false), HangUp]);
    var events := [Invite("x", 1, "a", false, false, Ring), Invite("x", 2, "b", true, false, Ring), Answer(false), HangUp];
    assert events[1..] == last;
  }
}
