/**
 Blind transfer: the two dialogs of a REFER and its NOTIFYs (esphome/components/voip_stack/sip_refer.cpp, and
 `remember_udp_transaction_` in sip_transport.cpp; RFC 3515). Messages are taken after parsing; what the peers and the
 media side decide comes in with the events.
 */
module Refer {
  import opened Machine

  /** The fields `swap_dialog_` exchanges; `rest` stands for those this model does not look into. */
  datatype Dialog = Dialog(callId: string, invitePending: bool, rest: nat)

  const NO_DIALOG := Dialog("", false, 0)

  /** The candidate's side of a transfer; the two slots hold NOTIFYs that await their response. */
  datatype ReferDialog = ReferDialog(
    dialog: Dialog,
    negotiation: nat,
    ownerCallId: string,
    ownerInviteEnded: bool,
    reporterAvailable: bool,
    notify: Option<nat>,
    notifyFinal: Option<nat>)

  datatype Signal = Accepted | Failed(status: nat) | Progress

  /** What went out for the transfer at hand, by status, and which dialogs it told to end itself; history only. */
  datatype Log = Log(notifies: seq<nat>, overwritten: bool, byes: seq<string>, cancels: seq<string>)

  /** `deferred` is `pending_provisional_response_`, which no scope swaps. */
  datatype Transport = Transport(
    dialog: Dialog,
    negotiation: nat,
    mediaActive: bool,
    deferred: Option<nat>,
    inScope: bool,
    refer: Option<ReferDialog>,
    retiring: bool,
    signal: Option<Signal>,
    log: Log)

  const INITIAL := Transport(NO_DIALOG, 0, false, None, false, None, false, None, Log([], false, [], []))

  // ---------- The two dialogs ----------

  /** `swap_dialog_` and `swap_negotiation_`. */
  function Swap(t: Transport): Transport {
    if t.refer.None? then t
    else
      t.(dialog := t.refer.value.dialog, negotiation := t.refer.value.negotiation,
         refer := Some(t.refer.value.(dialog := t.dialog, negotiation := t.negotiation)))
  }

  /** The turn ends the candidate's call: only `reset_dialog_` empties a Call-ID. */
  predicate Resets(before: Dialog, after: Dialog) {
    before.callId != "" && after.callId == ""
  }

  /**
   A scope that is not committed, in which the candidate's dialog becomes `dialog` and may raise a signal; a reset also
   clears the deferred provisional response, whosever it is.
   */
  function CandidateTurn(t: Transport, dialog: Dialog, negotiation: nat, raised: Option<Signal>): Transport {
    if t.refer.None? then t
    else
      t.(refer := Some(t.refer.value.(dialog := dialog, negotiation := negotiation)),
         deferred := if Resets(t.refer.value.dialog, dialog) then None else t.deferred,
         signal := if raised.Some? then raised else t.signal)
  }

  /** In a scope of its own: a BYE for the candidate's call, or a CANCEL for one still being set up. */
  function EndCandidate(t: Transport, after: Dialog): Transport {
    if t.refer.None? then t
    else
      var c := t.refer.value.dialog;
      var ended := CandidateTurn(t, after, t.refer.value.negotiation, None);
      if c.invitePending then ended.(log := t.log.(cancels := t.log.cancels + [c.callId]))
      else if c.callId != "" then ended.(log := t.log.(byes := t.log.byes + [c.callId]))
      else t
  }

  function ByeCandidate(t: Transport, after: Dialog): Transport {
    if t.refer.None? || t.refer.value.dialog.callId == "" then t
    else
      CandidateTurn(t, after, t.refer.value.negotiation, None)
        .(log := t.log.(byes := t.log.byes + [t.refer.value.dialog.callId]))
  }

  // ---------- NOTIFY ----------

  /** `remember_udp_transaction_` for a NOTIFY: the first slot if it is free, else the second. */
  function RememberNotify(t: Transport, status: nat): Transport {
    if t.refer.None? then t
    else if t.refer.value.notify.None? then t.(refer := Some(t.refer.value.(notify := Some(status))))
    else
      t.(refer := Some(t.refer.value.(notifyFinal := Some(status))),
         log := t.log.(overwritten := t.log.overwritten || t.refer.value.notifyFinal.Some?))
  }

  /** `notify_refer_`: a status from 200 on ends the subscription. */
  function Notify(t: Transport, status: nat): Transport {
    if t.refer.None? || !t.refer.value.reporterAvailable then t
    else
      var r := RememberNotify(t, status);
      r.(log := r.log.(notifies := r.log.notifies + [status]))
  }

  // ---------- The transfer ----------

  /** `handle_refer_`, past the checks of the request itself; `sent` says whether the INVITE to the target went out. */
  function HandleRefer(t: Transport, candidate: Dialog, negotiation: nat, invited: Dialog, sent: bool): Transport {
    if !t.mediaActive || t.inScope || t.refer.Some? then t
    else
      var accepted := t.(refer := Some(ReferDialog(candidate, negotiation, t.dialog.callId, false, true, None, None)),
                         retiring := false, signal := None, log := Log([], t.log.overwritten, [], []));
      var invited' := CandidateTurn(Notify(accepted, 100), invited, negotiation, None);
      if sent then invited' else Notify(invited', 503).(retiring := true)
  }

  /** `end_refer_invite_usage_`: the owner's INVITE usage ends while the transfer goes on. */
  function EndInviteUsage(t: Transport, reporter: bool): Transport {
    if t.inScope || t.refer.None? || t.retiring || t.dialog.callId != t.refer.value.ownerCallId then t
    else
      t.(refer := Some(t.refer.value.(ownerInviteEnded := true,
                                      reporterAvailable := t.refer.value.reporterAvailable && reporter)),
         mediaActive := false)
  }

  /** `cancel_refer_`. */
  function CancelRefer(t: Transport, after: Dialog): Transport {
    if t.inScope || t.refer.None? || t.retiring then t
    else EndCandidate(Notify(t, 487).(retiring := true), after)
  }

  /** `finish_failed_refer_`. */
  function FinishFailed(t: Transport, status: nat): Transport {
    var notified := Notify(t, status).(retiring := true);
    if t.refer.Some? && t.refer.value.ownerInviteEnded && t.dialog.callId == t.refer.value.ownerCallId
    then notified.(dialog := NO_DIALOG, mediaActive := false, deferred := None)
    else notified
  }

  /** The candidate takes over: its dialog becomes the live one, and the owner's is told to end or dropped. */
  function Commit(t: Transport, after: Dialog): Transport
    requires t.refer.Some?
  {
    var ended := t.refer.value.ownerInviteEnded;
    var swapped := Swap(Notify(t, 200)).(mediaActive := true, retiring := true);
    if ended then CandidateTurn(swapped, NO_DIALOG, t.negotiation, None) else ByeCandidate(swapped, after)
  }

  /** What the candidate's dialog does while it is pumped, whether its media suit the call, and what hanging up leaves of a dialog. */
  datatype World = World(pumped: Dialog, negotiation: nat, raised: Option<Signal>, mediaFits: bool, hungUp: Dialog, released: bool)

  /** The candidate's first acceptance, or a failure, if it is still wanted. */
  function ActOnSignal(t: Transport, w: World): Transport {
    if t.refer.None? || t.signal.None? || t.retiring then t
    else
      var taken := t.(signal := None);
      if t.signal.value.Accepted? then
        if t.dialog.callId == "" || !(t.mediaActive || t.refer.value.ownerInviteEnded) then taken
        else if !w.mediaFits then FinishFailed(ByeCandidate(taken, w.hungUp), 488)
        else Commit(taken, w.hungUp)
      else if t.signal.value.Failed? then
        FinishFailed(taken, if t.signal.value.status >= 300 then t.signal.value.status else 500)
      else taken
  }

  /** The owner's call is gone, or another one has taken its place. */
  predicate OwnerGone(t: Transport) {
    t.refer.Some? && t.dialog.callId != t.refer.value.ownerCallId
  }

  /** `pump_refer_`. */
  function PumpRefer(t: Transport, w: World): Transport {
    if t.inScope || t.refer.None? then t
    else
      var pumped := CandidateTurn(t, w.pumped, w.negotiation, w.raised);
      var orphaned := if !pumped.retiring && OwnerGone(pumped) then EndCandidate(pumped, w.hungUp).(retiring := true) else pumped;
      var acted := ActOnSignal(orphaned, w);
      if w.released then acted.(refer := None) else acted
  }

  // ---------- Events ----------

  datatype Event =
    | ReferArrives(candidate: Dialog, negotiation: nat, invited: Dialog, sent: bool)
    | CandidateMessage(dialog: Dialog, negotiation: nat, raised: Option<Signal>)
    | OwnerUsageEnds(reporter: bool)
    | OwnerChanges(dialog: Dialog, negotiation: nat, mediaActive: bool, deferred: Option<nat>)
    | TransferCancelled(after: Dialog)
    | NotifyAnswered(first: bool)
    | Pumped(world: World)

  function Step(t: Transport, e: Event): Transport {
    match e
    case ReferArrives(candidate, negotiation, invited, sent) => HandleRefer(t, candidate, negotiation, invited, sent)
    case CandidateMessage(dialog, negotiation, raised) => CandidateTurn(t, dialog, negotiation, raised)
    case OwnerUsageEnds(reporter) => EndInviteUsage(t, reporter)
    case OwnerChanges(dialog, negotiation, mediaActive, deferred) =>
      t.(dialog := dialog, negotiation := negotiation, mediaActive := mediaActive, deferred := deferred)
    case TransferCancelled(after) => CancelRefer(t, after)
    case NotifyAnswered(first) =>
      if t.refer.None? then t
      else if first then t.(refer := Some(t.refer.value.(notify := None)))
      else t.(refer := Some(t.refer.value.(notifyFinal := None)))
    case Pumped(world) => PumpRefer(t, world)
  }

  function Run(t: Transport, events: seq<Event>): Transport
    decreases |events|
  {
    if events == [] then t else Run(Step(t, events[0]), events[1..])
  }

  // ---------- NOTIFY discipline ----------

  /** A transfer has sent its 100 and at most one final status, which only a retiring transfer has. */
  predicate NotifyInv(t: Transport) {
    && !t.log.overwritten && !t.inScope
    && |t.log.notifies| <= 2
    && (|t.log.notifies| > 0 ==> t.log.notifies[0] == 100)
    && (t.refer.Some? ==>
          && |t.log.notifies| > 0
          && (!t.retiring ==> |t.log.notifies| == 1)
          && (|t.log.notifies| == 1 ==> t.refer.value.notifyFinal.None?))
  }

  lemma NotifyOnce(t: Transport, status: nat)
    requires NotifyInv(t) && t.refer.Some? && !t.retiring
    ensures NotifyInv(Notify(t, status).(retiring := true))
    ensures Notify(t, status).refer.Some?
  {
  }

  lemma StepKeeps(t: Transport, e: Event)
    requires NotifyInv(t)
    ensures NotifyInv(Step(t, e))
  {
    match e {
      case Pumped(w) => PumpKeeps(t, w);
      case _ =>
    }
  }

  lemma PumpKeeps(t: Transport, w: World)
    requires NotifyInv(t)
    ensures NotifyInv(PumpRefer(t, w))
  {
    if t.refer.Some? {
      var pumped := CandidateTurn(t, w.pumped, w.negotiation, w.raised);
      assert NotifyInv(pumped);
      var orphaned := if !pumped.retiring && OwnerGone(pumped) then EndCandidate(pumped, w.hungUp).(retiring := true) else pumped;
      assert NotifyInv(orphaned);
      ActKeeps(orphaned, w);
    }
  }

  lemma ActKeeps(t: Transport, w: World)
    requires NotifyInv(t)
    ensures NotifyInv(ActOnSignal(t, w))
  {
    if t.refer.Some? && t.signal.Some? && !t.retiring {
      var taken := t.(signal := None);
      assert NotifyInv(taken);
      NotifyOnce(taken, 200);
      assert NotifyInv(ByeCandidate(taken, w.hungUp));
      NotifyOnce(ByeCandidate(taken, w.hungUp), 488);
      if t.signal.value.Failed? {
        NotifyOnce(taken, if t.signal.value.status >= 300 then t.signal.value.status else 500);
      }
    }
  }

  lemma {:induction false} RunKeeps(t: Transport, events: seq<Event>)
    requires NotifyInv(t)
    ensures NotifyInv(Run(t, events))
    decreases |events|
  {
    if events != [] {
      StepKeeps(t, events[0]);
      hide NotifyInv, Step;
      RunKeeps(Step(t, events[0]), events[1..]);
    }
  }

  /**
   In every run each transfer sends at most two NOTIFYs, the first of them 100 Trying and so at most one that ends the
   subscription, and no NOTIFY takes a slot that still holds another.
   */
  lemma AtMostTwoNotifies(events: seq<Event>)
    ensures var log := Run(INITIAL, events).log;
            && |log.notifies| <= 2 && (log.notifies != [] ==> log.notifies[0] == 100) && !log.overwritten
  {
    RunKeeps(INITIAL, events);
  }

  // ---------- One dialog is told to end ----------

  /** The dialogs the transfer at hand has told to end, by BYE or CANCEL. */
  function Ends(t: Transport): nat {
    |t.log.byes| + |t.log.cancels|
  }

  /** The candidate has a call to end. */
  predicate Endable(c: Dialog) {
    c.invitePending || c.callId != ""
  }

  /** The pump ends the candidate of an owner that is gone, the candidate whose media do not fit, or the owner. */
  predicate PumpTells(p: Transport, w: World)
    requires p.refer.Some?
  {
    !p.retiring && (
      if OwnerGone(p) then Endable(p.refer.value.dialog)
      else
        && p.signal == Some(Accepted) && p.dialog.callId != "" && (p.mediaActive || p.refer.value.ownerInviteEnded)
        && (if w.mediaFits then !p.refer.value.ownerInviteEnded else p.refer.value.dialog.callId != ""))
  }

  /** The events that tell a dialog to end. */
  predicate Tells(t: Transport, e: Event) {
    !t.inScope && t.refer.Some? && !t.retiring &&
    match e
    case TransferCancelled(_) => Endable(t.refer.value.dialog)
    case Pumped(w) => PumpTells(CandidateTurn(t, w.pumped, w.negotiation, w.raised), w)
    case _ => false
  }

  /** An event of a transfer under way tells one dialog to end or none, and one exactly when `Tells` says so. */
  lemma OneEnd(t: Transport, e: Event)
    requires !e.ReferArrives?
    ensures Ends(Step(t, e)) == Ends(t) + (if Tells(t, e) then 1 else 0)
    ensures Tells(t, e) ==> Step(t, e).retiring
    ensures t.retiring ==> Step(t, e).retiring
  {
    match e {
      case Pumped(w) =>
        if !t.inScope && t.refer.Some? {
          PumpEnds(CandidateTurn(t, w.pumped, w.negotiation, w.raised), w);
        }
      case _ =>
    }
  }

  /** `pump_refer_` after the candidate's own pump. */
  lemma PumpEnds(p: Transport, w: World)
    requires p.refer.Some?
    ensures var orphaned := if !p.retiring && OwnerGone(p) then EndCandidate(p, w.hungUp).(retiring := true) else p;
            var acted := ActOnSignal(orphaned, w);
            && Ends(acted) == Ends(p) + (if PumpTells(p, w) then 1 else 0)
            && (PumpTells(p, w) || p.retiring ==> acted.retiring)
  {
    var taken := p.(signal := None);
    NotifyEndsNothing(taken, 200);
    NotifyEndsNothing(ByeCandidate(taken, w.hungUp), 488);
    if p.signal.Some? && p.signal.value.Failed? {
      NotifyEndsNothing(taken, if p.signal.value.status >= 300 then p.signal.value.status else 500);
    }
    hide Notify;
  }

  lemma NotifyEndsNothing(t: Transport, status: nat)
    ensures Notify(t, status).log.byes == t.log.byes && Notify(t, status).log.cancels == t.log.cancels
    ensures Notify(t, status).dialog == t.dialog && Notify(t, status).retiring == t.retiring
    ensures t.refer.Some? ==> Notify(t, status).refer.Some? && Notify(t, status).refer.value.dialog == t.refer.value.dialog
  {
  }

  /** A transfer that is not retiring has told nobody to end; one that is has told one dialog at most. */
  predicate EndsInv(t: Transport) {
    Ends(t) <= 1 && (t.refer.Some? && !t.retiring ==> Ends(t) == 0)
  }

  lemma EndsStep(t: Transport, e: Event)
    requires EndsInv(t)
    ensures EndsInv(Step(t, e))
  {
    match e {
      case ReferArrives(_, _, _, _) =>
      case _ => OneEnd(t, e);
    }
  }

  lemma {:induction false} RunEnds(t: Transport, events: seq<Event>)
    requires EndsInv(t)
    ensures EndsInv(Run(t, events))
    decreases |events|
  {
    if events != [] {
      EndsStep(t, events[0]);
      hide EndsInv, Step;
      RunEnds(Step(t, events[0]), events[1..]);
    }
  }

  /**
   Over every run of arrivals, cancelling, orphaning, refusal and acceptance each transfer tells at most one dialog to
   end, and none before it starts to retire.
   */
  lemma AtMostOneEnd(events: seq<Event>)
    ensures var t := Run(INITIAL, events);
            && |t.log.byes| + |t.log.cancels| <= 1
            && (t.refer.Some? && !t.retiring ==> t.log.byes == [] && t.log.cancels == [])
  {
    RunEnds(INITIAL, events);
  }

  // ---------- The acceptance ----------

  /**
   The candidate's 200 is acted on while the owner's INVITE usage is up. Exactly one of the two dialogs is told to end,
   and it is the one that is not live afterwards, if and only if the owner's media are active; otherwise neither is
   told anything and the acceptance is forgotten.
   */
  lemma OneByeIffMediaActive(t: Transport, w: World)
    requires !t.inScope && t.refer.Some? && !t.retiring && !w.released && w.raised == Some(Accepted)
    requires t.dialog.callId != "" && t.dialog.callId == t.refer.value.ownerCallId && !t.refer.value.ownerInviteEnded
    requires w.pumped.callId != "" && !w.pumped.invitePending
    ensures var t' := PumpRefer(t, w);
            && (t.mediaActive ==>
                  && t'.log.byes == t.log.byes + [if w.mediaFits then t.dialog.callId else w.pumped.callId]
                  && t'.dialog.callId == (if w.mediaFits then w.pumped.callId else t.dialog.callId)
                  && t'.retiring)
            && (!t.mediaActive ==> t'.log == t.log && t'.dialog == t.dialog && !t'.retiring && t'.signal.None?)
  {
    var pumped := CandidateTurn(t, w.pumped, w.negotiation, w.raised);
    assert !OwnerGone(pumped) && pumped.signal == Some(Accepted);
    hide RememberNotify;
    assert ActOnSignal(pumped, w) == PumpRefer(t, w);
  }

  /** Owner up, REFER taken, the owner's media closed by a failed worker, and the candidate's acceptance pumped. */
  function ForgottenRun(owner: Dialog, candidate: Dialog, w: World): seq<Event> {
    [OwnerChanges(owner, 0, true, None), ReferArrives(NO_DIALOG, 0, candidate, true),
     OwnerChanges(owner, 0, false, None), Pumped(w)]
  }

  /**
   A run of the code that forgets an acceptance: the owner's media close while its INVITE usage stays up. Nobody is told
   to end, nothing more is reported, and the transfer stays as it is under every later pump that raises nothing.
   */
  lemma AcceptanceForgotten(owner: Dialog, candidate: Dialog, w: World, later: World)
    requires owner.callId != "" && w.raised == Some(Accepted) && !w.released
    requires later.raised.None? && !later.released
    ensures var t := Run(INITIAL, ForgottenRun(owner, candidate, w));
            && t.dialog == owner && t.refer.Some? && !t.retiring && t.signal.None?
            && t.log == Log([100], false, [], [])
            && PumpRefer(t, later).log == t.log && !PumpRefer(t, later).retiring
  {
    var a := Step(INITIAL, OwnerChanges(owner, 0, true, None));
    var b := Step(a, ReferArrives(NO_DIALOG, 0, candidate, true));
    var c := Step(b, OwnerChanges(owner, 0, false, None));
    var d := Step(c, Pumped(w));
    var run := ForgottenRun(owner, candidate, w);
    assert b.refer.Some? && b.refer.value.ownerCallId == owner.callId && !b.refer.value.ownerInviteEnded;
    assert b.log == Log([100], false, [], []) && !b.retiring;
    assert d == c.(refer := Some(c.refer.value.(dialog := w.pumped, negotiation := w.negotiation)), signal := None);
    hide Step;
    assert Run(d, []) == d;
    assert run[3..] == [Pumped(w)] && Run(c, run[3..]) == d;
    assert run[2..][1..] == run[3..] && Run(b, run[2..]) == d;
    assert run[1..][1..] == run[2..] && Run(a, run[1..]) == d;
  }

  /**
   What a candidate's message does in its scope reaches neither the owner's dialog nor its negotiation nor its media. It
   reaches the deferred provisional response exactly when there is one and the message ends the candidate's call.
   */
  lemma CandidateLeavesOwnerAlone(t: Transport, dialog: Dialog, negotiation: nat, raised: Option<Signal>)
    requires t.refer.Some?
    ensures var inside := Swap(t).(dialog := dialog, negotiation := negotiation, signal := if raised.Some? then raised else t.signal);
            var reset := Resets(t.refer.value.dialog, dialog);
            Swap(inside.(deferred := if reset then None else t.deferred)) == CandidateTurn(t, dialog, negotiation, raised)
    ensures var t' := CandidateTurn(t, dialog, negotiation, raised);
            && t'.dialog == t.dialog && t'.negotiation == t.negotiation && t'.mediaActive == t.mediaActive
            && (t'.deferred != t.deferred <==> t.deferred.Some? && Resets(t.refer.value.dialog, dialog))
  {
  }

  /** A cancelled transfer whose candidate is still hanging up when a new call rings, and then hangs up. */
  function NewCallRings(owner: Dialog, candidate: Dialog, caller: Dialog, response: nat): seq<Event> {
    [OwnerChanges(owner, 0, true, None), ReferArrives(NO_DIALOG, 0, candidate, true), TransferCancelled(candidate),
     OwnerChanges(caller, 0, false, Some(response)), CandidateMessage(NO_DIALOG, 0, None)]
  }

  /** So the end of a retired candidate's call can lose the provisional response a new call is still waiting to send. */
  lemma RetiredCandidateDropsResponse(owner: Dialog, candidate: Dialog, caller: Dialog, response: nat)
    requires owner.callId != "" && candidate.callId != ""
    ensures var events := NewCallRings(owner, candidate, caller, response);
            && Run(INITIAL, events[..4]).deferred == Some(response)
            && Run(INITIAL, events).deferred.None? && Run(INITIAL, events).dialog == caller
  {
    var events := NewCallRings(owner, candidate, caller, response);
    var a := Step(INITIAL, events[0]);
    var b := Step(a, events[1]);
    var c := Step(b, events[2]);
    var d := Step(c, events[3]);
    assert b.refer.Some? && b.refer.value.dialog == candidate && !b.retiring;
    assert d.deferred == Some(response) && d.refer.Some? && d.refer.value.dialog == candidate && d.dialog == caller;
    var e := Step(d, events[4]);
    assert e.deferred.None? && e.dialog == caller;
    hide Step;
    assert Run(e, []) == e && Run(d, []) == d;
    assert forall k :: 0 <= k < 5 ==> events[k..][0] == events[k] && events[k..][1..] == events[k + 1..];
    assert forall k :: 0 <= k < 4 ==> events[..4][k..][0] == events[k] && events[..4][k..][1..] == events[..4][k + 1..];
    assert events[0..] == events && events[5..] == [] && events[..4][0..] == events[..4] && events[..4][4..] == [];
    assert Run(d, events[4..]) == e && Run(c, events[3..]) == e && Run(b, events[2..]) == e && Run(a, events[1..]) == e;
    assert Run(c, events[..4][3..]) == d && Run(b, events[..4][2..]) == d && Run(a, events[..4][1..]) == d;
  }
}
