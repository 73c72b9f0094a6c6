/**
 The INVITE server transaction as the fields and methods of `SipTransport`
 (esphome/components/voip_stack/sip_transport.cpp), proved to compute the functions of `UasDialog`.
 */
module UasTransport {
  import opened Machine
  import opened UasDialog

  class SipTransport {
    var callId: string
    var lastCseq: nat
    var lastBranch: string
    var remoteCseq: nat
    var mediaActive: bool
    var remoteSipTcp: bool
    var completedInvite: Option<Completed>
    var terminateAfterInviteAck: bool
    var pendingBye: bool
    var now: nat
    ghost var owed: Option<Owed>
    ghost var byes: seq<Bye>

    ghost function Value(): Dialog
      reads this
    {
      Dialog(callId, lastCseq, lastBranch, remoteCseq, mediaActive, remoteSipTcp, completedInvite,
             terminateAfterInviteAck, pendingBye, now, owed, byes)
    }

    constructor ()
      ensures Value() == INITIAL
    {
      callId, lastCseq, lastBranch, remoteCseq, mediaActive, remoteSipTcp := "", 0, "", 0, false, false;
      completedInvite, terminateAfterInviteAck, pendingBye, now := None, false, false, 0;
      owed, byes := None, [];
    }

    /** `reset_dialog_`. */
    method ResetDialog()
      modifies this
      ensures Value() == Reset(old(Value()))
    {
      callId, lastCseq, lastBranch, remoteCseq, mediaActive := "", 0, "", 0, false;
      terminateAfterInviteAck, pendingBye := false, false;
      owed := None;
    }

    /** `remember_completed_response_`. */
    method RememberCompletedResponse(call: string, cseq: nat, branch: string, status: nat)
      modifies this`completedInvite
      ensures Value() == Remember(old(Value()), call, cseq, branch, status)
    {
      if completedInvite.Some? && completedInvite.value.awaitingAck && completedInvite.value.callId == callId && lastCseq != 0
         && (completedInvite.value.callId != call || completedInvite.value.cseq != cseq || completedInvite.value.branch != branch)
      {
        return;
      }
      completedInvite := Some(Completed(call, cseq, branch, status, now, !remoteSipTcp, true));
    }

    /** `send_response_` with a final status. */
    method SendResponse(status: nat)
      modifies this`completedInvite, this`owed
      ensures Value() == Respond(old(Value()), status)
    {
      RememberCompletedResponse(callId, lastCseq, lastBranch, status);
      owed := if Success(status) then Some(Owed(lastCseq, now)) else None;
    }

    /** `defer_bye_until_uas_ack_locked_`. */
    method DeferByeUntilAck() returns (deferred: bool)
      modifies this`terminateAfterInviteAck
      ensures deferred == MustDefer(old(Value()))
      ensures Value() == old(Value()).(terminateAfterAck := old(terminateAfterInviteAck) || deferred)
    {
      var accepted := completedInvite.Some? && completedInvite.value.awaitingAck
                      && completedInvite.value.status >= 200 && completedInvite.value.status < 300
                      && callId != "" && completedInvite.value.callId == callId
                      && lastCseq == completedInvite.value.cseq;
      if !accepted {
        return false;
      }
      terminateAfterInviteAck := true;
      return true;
    }

    /** `send_bye_unlocked_`; the call named is the dialog's own. */
    method SendByeUnlocked() returns (handled: bool)
      modifies this`terminateAfterInviteAck, this`pendingBye, this`byes
      ensures Value() == SendBye(old(Value())) && handled == (old(callId) != "")
    {
      if callId == "" {
        return false;
      }
      var deferred := DeferByeUntilAck();
      if deferred {
        return true;
      }
      byes := byes + [Bye(callId, Early(Value()))];
      pendingBye := true;
      return true;
    }

    /** The ACK branch of the dispatcher. */
    method ReceiveAck(call: string, cseq: nat, matches: bool, answerAccepted: bool)
      modifies this
      ensures Value() == HandleAck(old(Value()), Ack(call, cseq, matches, answerAccepted))
    {
      if completedInvite.None? {
        return;
      }
      var record := completedInvite.value;
      if now >= record.sentAt + TIMEOUT {
        completedInvite := None;
        return;
      }
      if cseq != record.cseq || call != record.callId || !matches {
        return;
      }
      completedInvite := Some(record.(awaitingAck := false));
      if call == callId && owed.Some? && owed.value.cseq == cseq {
        owed := None;
      }
      if !Success(record.status) {
        return;
      }
      if terminateAfterInviteAck {
        terminateAfterInviteAck := false;
        var _ := SendByeUnlocked();
        return;
      }
      if callId != call || lastCseq != cseq || pendingBye {
        return;
      }
      if !answerAccepted {
        var _ := SendByeUnlocked();
        return;
      }
      mediaActive := true;
    }

    /** The ACK deadline in `pump_udp_retransmits_unlocked_`, and the expiry of the cached response. */
    method PumpInvite(elapsed: nat)
      modifies this
      ensures Value() == HandlePump(old(Value()), elapsed)
    {
      now := now + elapsed;
      var ackTimedOut := false;
      if completedInvite.Some? && completedInvite.value.awaitingAck && now >= completedInvite.value.sentAt + TIMEOUT {
        var record := completedInvite.value;
        completedInvite := Some(record.(awaitingAck := false));
        if Success(record.status) && callId != "" && callId == record.callId && lastCseq == record.cseq {
          terminateAfterInviteAck := false;
          ackTimedOut := true;
        }
      }
      if completedInvite.Some? && now >= completedInvite.value.sentAt + TIMEOUT {
        completedInvite := None;
      }
      if ackTimedOut {
        var _ := SendByeUnlocked();
      }
    }

    /** `close_tcp_dialog_`. */
    method CloseTcpDialog() returns (lost: bool)
      modifies this
      ensures Value() == HandleTcpLoss(old(Value()))
    {
      lost := remoteSipTcp && (callId != "" || mediaActive || pendingBye || terminateAfterInviteAck
                               || (completedInvite.Some? && completedInvite.value.awaitingAck));
      if completedInvite.Some? && !completedInvite.value.udp {
        completedInvite := None;
        terminateAfterInviteAck := false;
        owed := None;
      }
      remoteSipTcp := false;
      if lost {
        ResetDialog();
      }
    }

    /** `handle_reinvite_`, the verdict being that of the media negotiation. */
    method HandleReinvite(cseq: nat, branch: string, verdict: Verdict)
      modifies this
      ensures Value() == Reinvite(old(Value()), cseq, branch, verdict)
    {
      if !mediaActive {
        RememberCompletedResponse(callId, cseq, branch, 481);
        return;
      }
      if completedInvite.Some? && completedInvite.value.awaitingAck {
        return;
      }
      if cseq <= remoteCseq {
        RememberCompletedResponse(callId, cseq, branch, 500);
        return;
      }
      match verdict {
        case Accept =>
          lastCseq, lastBranch, remoteCseq := cseq, branch, cseq;
          SendResponse(200);
        case Refuse(status) =>
          if status >= 300 {
            RememberCompletedResponse(callId, cseq, branch, status);
          }
        case Ring =>
      }
    }
  }
}
