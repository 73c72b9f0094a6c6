/**
 Blind transfer as the fields and methods of `SipTransport` (esphome/components/voip_stack/sip_refer.cpp): a scope
 really exchanges the two dialogs in place, and the methods are proved to compute the functions of `Refer`.
 */
module ReferTransport {
  import opened Machine
  import opened Refer

  class SipTransport {
    var dialog: Dialog
    var negotiation: nat
    var mediaActive: bool
    var deferred: Option<nat>
    var inScope: bool
    var refer: Option<ReferDialog>
    var retiring: bool
    var signal: Option<Signal>
    ghost var log: Log

    ghost function Value(): Transport
      reads this
    {
      Transport(dialog, negotiation, mediaActive, deferred, inScope, refer, retiring, signal, log)
    }

    constructor ()
      ensures Value() == INITIAL
    {
      dialog, negotiation, mediaActive, inScope := NO_DIALOG, 0, false, false;
      deferred, refer, retiring, signal, log := None, None, false, None, Log([], false, [], []);
    }

    /** `swap_dialog_` and `swap_negotiation_`. */
    method SwapWithCandidate()
      requires refer.Some?
      modifies this`dialog, this`negotiation, this`refer
      ensures Value() == Swap(old(Value()))
    {
      var theirs, terms := refer.value.dialog, refer.value.negotiation;
      refer := Some(refer.value.(dialog := dialog, negotiation := negotiation));
      dialog, negotiation := theirs, terms;
    }

    /** The constructor of `ReferScope`. */
    method EnterScope()
      requires refer.Some? && !inScope
      modifies this`dialog, this`negotiation, this`refer, this`inScope
      ensures Value() == Swap(old(Value())).(inScope := true)
    {
      inScope := true;
      SwapWithCandidate();
    }

    /** Its destructor. */
    method LeaveScope(committed: bool)
      requires refer.Some? && inScope
      modifies this`dialog, this`negotiation, this`refer, this`inScope
      ensures Value() == (if committed then old(Value()) else Swap(old(Value()))).(inScope := false)
    {
      if !committed {
        SwapWithCandidate();
      }
      inScope := false;
    }

    /** `open_media_session_`: nothing while the candidate is in the live fields. */
    method OpenMediaSession()
      modifies this`mediaActive
      ensures mediaActive == (old(mediaActive) || !inScope)
    {
      if inScope {
        return;
      }
      mediaActive := true;
    }

    /** `close_media_session_`, under the same guard. */
    method CloseMediaSession()
      modifies this`mediaActive
      ensures mediaActive == (old(mediaActive) && inScope)
    {
      if inScope {
        return;
      }
      mediaActive := false;
    }

    /** `emit_sip_signal_` in a scope. */
    method EmitSignal(raised: Signal)
      requires inScope
      modifies this`signal
      ensures signal == Some(raised)
    {
      signal := Some(raised);
    }

    /** A handler leaves this dialog behind in the live fields; `reset_dialog_` clears the deferred response with it. */
    method LeaveDialog(after: Dialog)
      modifies this`dialog, this`deferred
      ensures dialog == after
      ensures deferred == if Resets(old(dialog), after) then None else old(deferred)
    {
      if dialog.callId != "" && after.callId == "" {
        deferred := None;
      }
      dialog := after;
    }

    /** The candidate's message, handled in a scope: it may leave any dialog behind and open or close media. */
    method HandleCandidate(after: Dialog, terms: nat, raised: Option<Signal>, opens: bool, closes: bool)
      requires refer.Some? && !inScope
      modifies this
      ensures Value() == CandidateTurn(old(Value()), after, terms, raised)
    {
      EnterScope();
      LeaveDialog(after);
      negotiation := terms;
      if raised.Some? {
        EmitSignal(raised.value);
      }
      ghost var left := Value();
      if opens {
        OpenMediaSession();
      }
      if closes {
        CloseMediaSession();
      }
      assert Value() == left;
      LeaveScope(false);
    }

    /** The scope in which the candidate's call is ended, by CANCEL while it is being set up and by BYE after. */
    method HangUpCandidate(after: Dialog)
      requires refer.Some? && !inScope
      modifies this
      ensures Value() == EndCandidate(old(Value()), after)
    {
      EnterScope();
      if dialog.invitePending {
        log := log.(cancels := log.cancels + [dialog.callId]);
        LeaveDialog(after);
      } else if dialog.callId != "" {
        log := log.(byes := log.byes + [dialog.callId]);
        LeaveDialog(after);
      }
      LeaveScope(false);
    }

    /** The scope that ends whichever dialog is stored beside the live one. */
    method ByeStored(after: Dialog)
      requires refer.Some? && !inScope
      modifies this
      ensures Value() == ByeCandidate(old(Value()), after)
    {
      EnterScope();
      if dialog.callId != "" {
        log := log.(byes := log.byes + [dialog.callId]);
        LeaveDialog(after);
      }
      LeaveScope(false);
    }

    /** `remember_udp_transaction_`, for a NOTIFY. */
    method RememberTransaction(status: nat)
      modifies this`refer, this`log
      ensures Value() == RememberNotify(old(Value()), status)
    {
      if refer.None? {
        return;
      }
      if refer.value.notify.None? {
        refer := Some(refer.value.(notify := Some(status)));
      } else {
        log := log.(overwritten := log.overwritten || refer.value.notifyFinal.Some?);
        refer := Some(refer.value.(notifyFinal := Some(status)));
      }
    }

    /** `notify_refer_`. */
    method NotifyRefer(status: nat)
      modifies this`refer, this`log
      ensures Value() == Notify(old(Value()), status)
    {
      if refer.None? || !refer.value.reporterAvailable {
        return;
      }
      RememberTransaction(status);
      log := log.(notifies := log.notifies + [status]);
    }

    /** `end_refer_invite_usage_`. */
    method EndReferInviteUsage(reporter: bool) returns (ended: bool)
      modifies this
      ensures Value() == EndInviteUsage(old(Value()), reporter)
    {
      if inScope || refer.None? || retiring || dialog.callId != refer.value.ownerCallId {
        return false;
      }
      refer := Some(refer.value.(ownerInviteEnded := true, reporterAvailable := refer.value.reporterAvailable && reporter));
      CloseMediaSession();
      return true;
    }

    /** `cancel_refer_`. */
    method Cancel(after: Dialog)
      modifies this
      ensures Value() == CancelRefer(old(Value()), after)
    {
      if inScope || refer.None? || retiring {
        return;
      }
      NotifyRefer(487);
      retiring := true;
      HangUpCandidate(after);
    }

    /** `finish_failed_refer_`. */
    method FinishFailedRefer(status: nat)
      requires refer.Some? && !inScope
      modifies this
      ensures Value() == FinishFailed(old(Value()), status)
    {
      NotifyRefer(status);
      retiring := true;
      if refer.value.ownerInviteEnded && dialog.callId == refer.value.ownerCallId {
        dialog, deferred := NO_DIALOG, None;
        CloseMediaSession();
      }
    }

    /** The part of `pump_refer_` that acts on what the candidate signalled. */
    method ActOnCandidate(w: World)
      requires refer.Some? && !inScope
      modifies this
      ensures Value() == ActOnSignal(old(Value()), w)
    {
      if signal.None? || retiring {
        return;
      }
      var kind := signal.value;
      signal := None;
      if kind.Accepted? && dialog.callId != "" && (mediaActive || refer.value.ownerInviteEnded) {
        if !w.mediaFits {
          ByeStored(w.hungUp);
          FinishFailedRefer(488);
          return;
        }
        var ended, terms := refer.value.ownerInviteEnded, negotiation;
        NotifyRefer(200);
        EnterScope();
        LeaveScope(true);
        OpenMediaSession();
        retiring := true;
        if ended {
          EnterScope();
          LeaveDialog(NO_DIALOG);
          negotiation := terms;
          LeaveScope(false);
        } else {
          ByeStored(w.hungUp);
        }
      } else if kind.Failed? {
        FinishFailedRefer(if kind.status >= 300 then kind.status else 500);
      }
    }

    /** `pump_refer_`. */
    method Pump(w: World)
      modifies this
      ensures Value() == PumpRefer(old(Value()), w)
    {
      hide ActOnSignal, EndCandidate;
      if inScope {
        return;
      }
      if refer.None? {
        return;
      }
      HandleCandidate(w.pumped, w.negotiation, w.raised, false, false);
      if !retiring && dialog.callId != refer.value.ownerCallId {
        EndCandidateKeepsRefer(Value(), w.hungUp);
        HangUpCandidate(w.hungUp);
        retiring := true;
      }
      ActOnCandidate(w);
      if w.released {
        refer := None;
      }
    }
  }

  lemma EndCandidateKeepsRefer(t: Transport, after: Dialog)
    ensures EndCandidate(t, after).refer.Some? <==> t.refer.Some?
    ensures EndCandidate(t, after).inScope == t.inScope
  {
  }
}
