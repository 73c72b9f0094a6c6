/**
 The even/odd epoch that keeps realtime readers off media proposals: `ScopedMediaProposal` and the readers in
 `send_audio_frame` and `rtp_task_` (esphome/components/voip_stack/sip_transport.cpp), `ReferScope`
 (esphome/components/voip_stack/sip_refer.cpp). One thread holds the dialog mutex and runs the scopes; any number of
 senders and receivers run beside it. Each step is one atomic access or one critical section.

 A REFER scope swaps the dialogs but not our own pending video re-INVITE. A retry of it that falls due while the scope
 is pumped goes out on the candidate's dialog, its answer is handled in a later REFER scope, and the proposal that
 answer opens makes the epoch even inside the scope. `MediaGlare` says exactly when that happens.

 Four handlers write the configuration in no scope: the 2xx to our own INVITE, the acceptance of a new call, the ACK that
 answers a delayed offer, and `send_answer`; `set_remote` writes the address alone, from any task. They set up calls
 before the RTP path runs, but nothing keeps them from writing while it does. `MediaLate` says exactly when that mixes
 configurations in a packet. (A re-INVITE that is taken writes back, after its scope, what it has compared equal.)
 */
module MediaEpoch {
  import opened Machine

  /** What one critical section of `media_config_lock_` reads or writes: formats are packed words. */
  datatype Media = Media(txFormat: u32, txPayloadType: byte, rxFormats: map<byte, u32>)

  /** A negotiated configuration: the media fields and the peer's address. */
  datatype Config = Config(media: Media, ip: u32)

  /** What the holder of the dialog mutex is doing; a proposal inside a REFER scope keeps that scope's other side. */
  datatype Scope =
    | Idle
    | Writing(media: Media, ip: Option<u32>)
    | WritingIp(ip: Option<u32>)
    | Proposing(before: Config, outer: Option<Config>)
    | RestoredMedia(before: Config, outer: Option<Config>)
    | Restored(before: Config, outer: Option<Config>)
    | ReferOpened(candidate: Config)
    | ReferHalfIn(owner: Media, candidateIp: u32)
    | InRefer(other: Config)
    | ReferHalfOut(otherIp: u32)
    | ReferOut(committed: bool)

  /** Our own video re-INVITE (`pending_video_direction_invite_`), with the dialog whose Call-ID and tags it carries. */
  datatype Own = NoOwn | WaitingRetry | Outstanding(dialog: nat, retried: bool)

  /** `refer_dialog_` and `refer_retiring_`. */
  datatype Transfer = NoTransfer | Pending | Retiring

  /** Our part in a dialog: a call taken, or one we originated, with its INVITE unanswered, the record that replays its
   ACK (`completed_invite_client_`) in place, or that record gone. */
  datatype Leg = NoCall | Incoming(delayed: bool) | Inviting | Recorded | Lapsed

  /** The signalling that decides what is handled: `owner` is the dialog in place outside a REFER scope, `candidate`
   the one in place inside it, `next` a dialog that does not exist yet. */
  datatype Sip = Sip(
    own: Own,
    video: bool,
    transfer: Transfer,
    owner: nat,
    candidate: nat,
    next: nat,
    leg: Leg,
    candidateLeg: Leg)

  datatype Stage =
    | Sending
    | SendingMedia(media: Media)
    | SendingChecked(media: Media)
    | SendingTo(media: Media, ip: u32)
    | Receiving(source: u32, payloadType: byte)
    | ReceivingFrom(source: u32, payloadType: byte, expected: u32)
    | ReceivingAs(source: u32, payloadType: byte, expected: u32, format: u32)

  /** A sender or receiver at one packet: the epoch it loaded, and the stable configuration in force when it first read. */
  datatype Reader = Reader(count: nat, index: nat, stage: Stage)

  /** A packet on the wire, or one handed to the audio path; the stable configurations in force while it was made are
   those from `index` up to, not including, `until`. */
  datatype Packet =
    | Sent(format: u32, payloadType: byte, ip: u32, index: nat, until: nat)
    | Received(source: u32, payloadType: byte, format: u32, index: nat, until: nat)

  /** The realtime side: `running` is `rtp_running_`, `looping` the negation of `rtp_task_quiesced_`, `active` is
   `media_active_`. */
  datatype Rtp = Rtp(running: bool, looping: bool, active: bool, readers: map<nat, Reader>, packets: seq<Packet>)

  /** `stable` lists the configurations between the outermost scopes and the negotiations outside them; `commits` are the
   REFER commits and `negotiated` those negotiations, by the configuration before them. */
  datatype Log = Log(stable: seq<Config>, commits: set<int>, negotiated: set<int>)

  /** `count` is the epoch without wrap-around. */
  datatype State = State(count: nat, live: Config, scope: Scope, candidate: Config, rtp: Rtp, log: Log, sip: Sip)

  function Initial(config: Config, candidate: Config, video: bool): State {
    State(0, config, Idle, candidate, Rtp(false, false, true, map[], []), Log([config], {}, {}),
          Sip(NoOwn, video, NoTransfer, 0, 1, 2, Incoming(false), NoCall))
  }

  /** The 32-bit epoch word. */
  function Epoch(s: State): u32 {
    Wrap32(s.count)
  }

  /** The handlers that write the configuration in no scope; a 2xx may match the record of the first one. */
  datatype Negotiation = OwnAnswer(matchesRecord: bool) | NewCall | DelayedAnswer | LocalAnswer

  datatype Signal =
    | Invites
    | Answered
    | Lapses
    | Retires
    | Released
    | VideoNegotiated(on: bool)
    | Requested
    | Glare
    | RetryDue(sent: bool)
    | Dropped

  datatype Label =
    | Negotiates(kind: Negotiation, media: Media, address: Option<u32>, video: bool)
    | SetRemote(ip: u32)
    | CallEnds
    | RtpStart
    | RtpStop
    | RtpQuiesces
    | MediaOpens
    | MediaCloses
    | ReferArrives(target: Config)
    | Signalled(signal: Signal)
    | OpenReinvite
    | OpenAnswer
    | OpenRefer
    | WriteMedia(media: Media)
    | WriteIp(ip: u32)
    | Advance(commit: bool)
    | StartSending(id: nat)
    | StartReceiving(id: nat, source: u32, payloadType: byte)
    | ReaderStep(id: nat)

  // ---------- Writers ----------

  /** A scope's bump. */
  function Bump(s: State, scope: Scope): State {
    s.(count := s.count + 1, scope := scope)
  }

  /** Closing the outermost scope makes the configuration it leaves the next stable one. */
  function Close(s: State): State {
    Bump(s, Idle).(log := s.log.(stable := s.log.stable + [s.live]))
  }

  /** What was written outside the scopes is the next stable configuration. */
  function Settle(s: State): State {
    s.(scope := Idle,
       log := s.log.(stable := s.log.stable + [s.live], negotiated := s.log.negotiated + {|s.log.stable| - 1}))
  }

  /** `ReferScope::commit`: the candidate stays in place, and the old dialog retires. */
  function Commit(s: State, other: Config): State {
    s.(scope := ReferOut(true), candidate := other,
       sip := s.sip.(owner := s.sip.candidate, candidate := s.sip.owner, transfer := Retiring,
                     leg := s.sip.candidateLeg, candidateLeg := s.sip.leg))
  }

  /** The straight line through a scope, after its writes. */
  function NextScope(s: State, commit: bool): State {
    match s.scope
    case Idle => s
    case Writing(media, ip) => s.(live := s.live.(media := media), scope := WritingIp(ip))
    case WritingIp(ip) => Settle(if ip.Some? then s.(live := s.live.(ip := ip.value)) else s)
    case Proposing(before, outer) => s.(live := s.live.(media := before.media), scope := RestoredMedia(before, outer))
    case RestoredMedia(before, outer) => s.(live := s.live.(ip := before.ip), scope := Restored(before, outer))
    case Restored(before, outer) => if outer.Some? then Bump(s, InRefer(outer.value)) else Close(s)
    case ReferOpened(c) => s.(live := s.live.(media := c.media), scope := ReferHalfIn(s.live.media, c.ip))
    case ReferHalfIn(owner, ip) => s.(live := s.live.(ip := ip), scope := InRefer(Config(owner, s.live.ip)))
    case InRefer(other) =>
      if commit && s.sip.transfer.Pending? then Commit(s, other)
      else s.(live := s.live.(media := other.media), candidate := s.candidate.(media := s.live.media),
              scope := ReferHalfOut(other.ip))
    case ReferHalfOut(ip) =>
      s.(live := s.live.(ip := ip), candidate := s.candidate.(ip := s.live.ip), scope := ReferOut(false))
    case ReferOut(committed) =>
      Close(if committed then s.(log := s.log.(commits := s.log.commits + {|s.log.stable| - 1})) else s)
  }

  /** Inside a scope negotiation may write any media and any address. */
  predicate MayWrite(scope: Scope) {
    scope.Proposing? || scope.InRefer?
  }

  // ---------- Signalling ----------

  /** Messages and deadlines are handled outside every scope or inside a REFER scope. */
  predicate MayHandle(scope: Scope) {
    scope.Idle? || scope.InRefer?
  }

  /** The dialog in place: `swap_dialog_` exchanges it, and leaves our own re-INVITE where it is. */
  function InPlace(s: State): nat {
    if s.scope.InRefer? then s.sip.candidate else s.sip.owner
  }

  /** A response to our own re-INVITE is taken only with the Call-ID and tags it was sent with. */
  predicate AnswerMatches(s: State) {
    MayHandle(s.scope) && s.sip.own.Outstanding? && s.sip.own.dialog == InPlace(s)
  }

  /** `swap_dialog_` exchanges the record of our own INVITE, too. */
  function PutLeg(s: State, leg: Leg): Sip {
    if s.scope.InRefer? then s.sip.(candidateLeg := leg) else s.sip.(leg := leg)
  }

  function LegInPlace(s: State): Leg {
    if s.scope.InRefer? then s.sip.candidateLeg else s.sip.leg
  }

  /** A transfer whose owner's call is replaced never commits. */
  function Orphaned(t: Transfer): Transfer {
    if t.Pending? then Retiring else t
  }

  /** The dialog of another call, outside a REFER scope: `reset_dialog_` has dropped our own re-INVITE and the video. */
  function FreshDialog(p: Sip, leg: Leg): Sip {
    p.(own := NoOwn, video := false, transfer := Orphaned(p.transfer), owner := p.next, next := p.next + 1, leg := leg)
  }

  /**
   One signalling event. A new INVITE of ours waits for the media of the last call to be gone; a video direction can be
   negotiated while no transfer is pending (a re-INVITE then meets 491) and none of our own re-INVITEs is; a retry goes
   out on the dialog in place; its timeout, a final response or the end of the call drops it.
   */
  function NextSip(s: State, e: Signal): Sip {
    var p := s.sip;
    match e
    case Invites =>
      if s.scope.InRefer? then p.(candidateLeg := Inviting)
      else if s.scope.Idle? && !s.rtp.looping then FreshDialog(p, Inviting) else p
    case Answered =>
      if s.scope.InRefer? && (p.candidateLeg.Inviting? || p.candidateLeg.Lapsed?) then PutLeg(s, Recorded) else p
    case Lapses => if MayHandle(s.scope) && LegInPlace(s).Recorded? then PutLeg(s, Lapsed) else p
    case Retires => if s.scope.Idle? && p.transfer.Pending? then p.(transfer := Retiring) else p
    case Released => if s.scope.Idle? then p.(transfer := NoTransfer) else p
    case VideoNegotiated(on) => if s.scope.Idle? && !p.transfer.Pending? && p.own.NoOwn? then p.(video := on) else p
    case Requested =>
      if s.scope.Idle? && p.video && s.rtp.active && p.own.NoOwn? then p.(own := Outstanding(p.owner, false)) else p
    case Glare => if AnswerMatches(s) && !p.own.retried then p.(own := WaitingRetry) else p
    case RetryDue(sent) =>
      if MayHandle(s.scope) && p.own.WaitingRetry? then
        p.(own := if sent && s.rtp.active then Outstanding(InPlace(s), true) else NoOwn)
      else p
    case Dropped => if MayHandle(s.scope) then p.(own := NoOwn) else p
  }

  /** `handle_refer_`: one transfer at a time, none while video is negotiated. */
  function Arrive(s: State, target: Config): State {
    if s.scope.Idle? && s.sip.transfer.NoTransfer? && !s.sip.video then
      s.(candidate := target, sip := s.sip.(transfer := Pending, candidate := s.sip.next, next := s.sip.next + 1,
                                        candidateLeg := NoCall))
    else s
  }

  /** `reset_dialog_` outside a REFER scope: it closes the media and stops the RTP path, too. */
  function End(s: State): State {
    if s.scope.Idle? then s.(sip := FreshDialog(s.sip, NoCall), rtp := s.rtp.(running := false, active := false)) else s
  }

  /**
   Which negotiations are handled in no scope: a 2xx that matches the record of our INVITE is answered from it, an
   INVITE is a new call only if there is none and the media of the last are not being cleaned up, and an ACK carries an
   answer only to a delayed offer. `send_answer` and an INVITE without a body write no address.
   */
  predicate Handles(s: State, kind: Negotiation, ip: Option<u32>) {
    s.scope.Idle? &&
    match kind
    case OwnAnswer(matches) => (s.sip.leg.Inviting? || s.sip.leg.Lapsed? || (s.sip.leg.Recorded? && !matches)) && ip.Some?
    case NewCall => s.sip.leg.NoCall? && (s.rtp.running || !s.rtp.looping)
    case DelayedAnswer => s.sip.leg == Incoming(true) && ip.Some?
    case LocalAnswer => ip.None?
  }

  function NegotiatedSip(p: Sip, kind: Negotiation, ip: Option<u32>, video: bool): Sip {
    match kind
    case OwnAnswer(_) => p.(leg := Recorded, video := video)
    case NewCall => FreshDialog(p, Incoming(ip.None?)).(video := video)
    case DelayedAnswer => p.(leg := Incoming(false), video := video)
    case LocalAnswer => p
  }

  function Negotiate(s: State, kind: Negotiation, media: Media, ip: Option<u32>, video: bool): State {
    if Handles(s, kind, ip) then s.(scope := Writing(media, ip), sip := NegotiatedSip(s.sip, kind, ip, video)) else s
  }

  /** `set_remote`, which takes no mutex. */
  function Retarget(s: State, ip: u32): State {
    var t := s.(live := s.live.(ip := ip));
    if s.scope.Idle? then Settle(t) else t
  }

  /** The 2xx to our own re-INVITE opens a proposal wherever it is handled. */
  function Answer(s: State): State {
    if !AnswerMatches(s) then s
    else Bump(s.(sip := s.sip.(own := NoOwn)), Proposing(s.live, if s.scope.InRefer? then Some(s.scope.other) else None))
  }

  // ---------- Readers ----------

  /** `epoch == the word loaded first`. */
  predicate Same(s: State, count: nat) {
    Epoch(s) == Wrap32(count)
  }

  /** Where a reader goes; `None` when it is done with its packet. */
  function NextStage(s: State, r: Reader): Option<Stage> {
    match r.stage
    case Sending => Some(SendingMedia(s.live.media))
    case SendingMedia(m) => if Same(s, r.count) then Some(SendingChecked(m)) else None
    case SendingChecked(m) => if !s.rtp.running || s.live.ip == 0 then None else Some(SendingTo(m, s.live.ip))
    case SendingTo(m, ip) => None
    case Receiving(source, pt) =>
      if s.live.ip != 0 && source != s.live.ip then None else Some(ReceivingFrom(source, pt, s.live.ip))
    case ReceivingFrom(source, pt, expected) =>
      if pt in s.live.media.rxFormats then Some(ReceivingAs(source, pt, expected, s.live.media.rxFormats[pt])) else None
    case ReceivingAs(_, _, _, _) => None
  }

  function SentBy(s: State, m: Media, ip: u32, index: nat): Packet {
    Sent(m.txFormat, m.txPayloadType, ip, index, |s.log.stable|)
  }

  function ReceivedBy(s: State, source: u32, pt: byte, format: u32, index: nat): Packet {
    Received(source, pt, format, index, |s.log.stable|)
  }

  /** The packet a reader's last step lets through. */
  function Emitted(s: State, r: Reader): seq<Packet> {
    match r.stage
    case SendingTo(m, ip) => if Same(s, r.count) then [SentBy(s, m, ip, r.index)] else []
    case ReceivingAs(source, pt, _, format) => if Same(s, r.count) then [ReceivedBy(s, source, pt, format, r.index)] else []
    case _ => []
  }

  function FirstRead(s: State, r: Reader): nat {
    if (r.stage.Sending? || r.stage.Receiving?) && s.log.stable != [] then |s.log.stable| - 1 else r.index
  }

  function StepReader(s: State, id: nat): State
    requires id in s.rtp.readers
  {
    var r := s.rtp.readers[id];
    var next := NextStage(s, r);
    s.(rtp := s.rtp.(
         readers := if next.Some? then s.rtp.readers[id := Reader(r.count, FirstRead(s, r), next.value)]
                    else s.rtp.readers - {id},
         packets := s.rtp.packets + Emitted(s, r)))
  }

  predicate IsSender(stage: Stage) {
    stage.Sending? || stage.SendingMedia? || stage.SendingChecked? || stage.SendingTo?
  }

  /** The RTP task is at no packet. */
  predicate NoReceiver(s: State) {
    forall id :: id in s.rtp.readers ==> IsSender(s.rtp.readers[id].stage)
  }

  /** A sender begins only while the RTP path runs; the RTP task, which takes one packet at a time, receives in its loop
   while media are active; both begin at an even epoch. */
  function Start(s: State, id: nat, stage: Stage): State {
    if !(if stage.Sending? then s.rtp.running else s.rtp.looping && s.rtp.active && NoReceiver(s)) || id in s.rtp.readers
    then s
    else if Epoch(s) % 2 == 1 || s.log.stable == [] then s
    else s.(rtp := s.rtp.(readers := s.rtp.readers[id := Reader(s.count, |s.log.stable| - 1, stage)]))
  }

  // ---------- The machine ----------

  /**
   One step. The RTP path starts and is cleaned up under the mutex that the handlers write under; media open only after
   they have written. A re-INVITE of the peer opens its proposal outside every scope, as inside a REFER scope it meets
   491, and `pump_refer_` returns at once there; the answer to our own re-INVITE has no such guard.
   */
  function Step(s: State, l: Label): State {
    match l
    case Negotiates(kind, media, ip, video) => Negotiate(s, kind, media, ip, video)
    case SetRemote(ip) => Retarget(s, ip)
    case CallEnds => End(s)
    case RtpStart =>
      if s.scope.Writing? || s.scope.WritingIp? || s.rtp.looping then s
      else s.(rtp := s.rtp.(running := true, looping := true))
    case RtpStop => s.(rtp := s.rtp.(running := false))
    case RtpQuiesces =>
      if s.rtp.running || !NoReceiver(s) || s.scope.Writing? || s.scope.WritingIp? then s
      else s.(rtp := s.rtp.(looping := false))
    case MediaOpens => if s.scope.Idle? then s.(rtp := s.rtp.(active := true)) else s
    case MediaCloses => s.(rtp := s.rtp.(active := false))
    case ReferArrives(target) => Arrive(s, target)
    case Signalled(e) => s.(sip := NextSip(s, e))
    case OpenReinvite =>
      if s.scope.Idle? && !s.sip.transfer.Pending? && s.sip.own.NoOwn? then Bump(s, Proposing(s.live, None)) else s
    case OpenAnswer => Answer(s)
    case OpenRefer => if s.scope.Idle? && !s.sip.transfer.NoTransfer? then Bump(s, ReferOpened(s.candidate)) else s
    case WriteMedia(media) => if MayWrite(s.scope) then s.(live := s.live.(media := media)) else s
    case WriteIp(ip) => if MayWrite(s.scope) then s.(live := s.live.(ip := ip)) else s
    case Advance(commit) => NextScope(s, commit)
    case StartSending(id) => Start(s, id, Sending)
    case StartReceiving(id, source, pt) => Start(s, id, Receiving(source, pt))
    case ReaderStep(id) => if id in s.rtp.readers then StepReader(s, id) else s
  }

  function Run(s: State, ls: seq<Label>): State
    decreases |ls|
  {
    if ls == [] then s else Run(Step(s, ls[0]), ls[1..])
  }

  // ---------- The invariant ----------

  /** The scopes that do not make the epoch odd. */
  predicate Unscoped(scope: Scope) {
    scope.Idle? || scope.Writing? || scope.WritingIp?
  }

  function Last(s: State): Config
    requires s.log.stable != []
  {
    s.log.stable[|s.log.stable| - 1]
  }

  predicate ScopeInv(s: State) {
    && s.log.stable != []
    && (Unscoped(s.scope) <==> s.count % 2 == 0)
    && (s.scope.Idle? || s.scope.Writing? ==> s.live == Last(s))
    && (s.scope.WritingIp? ==> s.live.ip == Last(s).ip)
    && (s.scope.Writing? || s.scope.WritingIp? ==> !s.rtp.running && !(s.rtp.looping && s.rtp.active))
    && (s.rtp.running ==> s.rtp.looping)
    && (s.scope.Proposing? || s.scope.RestoredMedia? || s.scope.Restored? ==>
          s.scope.before == Last(s) && s.scope.outer.None?)
    && (s.scope.RestoredMedia? ==> s.live.media == s.scope.before.media)
    && (s.scope.Restored? ==> s.live == s.scope.before)
    && (s.scope.ReferOpened? ==> s.live == Last(s))
    && (s.scope.ReferHalfIn? ==> Config(s.scope.owner, s.live.ip) == Last(s))
    && (s.scope.InRefer? ==> s.scope.other == Last(s))
    && (s.scope.ReferHalfOut? ==> Config(s.live.media, s.scope.otherIp) == Last(s))
    && (s.scope.ReferOut? && !s.scope.committed ==> s.live == Last(s))
  }

  /** The stable configuration changes only at commits and negotiations. */
  predicate ChangesInv(s: State) {
    forall k :: 0 <= k < |s.log.stable| - 1 && k !in s.log.commits && k !in s.log.negotiated ==>
      s.log.stable[k + 1] == s.log.stable[k]
  }

  /** Our own re-INVITE is never outstanding on the candidate's dialog. */
  predicate SipInv(s: State) {
    var p := s.sip;
    && p.owner < p.next && p.candidate < p.next && p.owner != p.candidate
    && (s.scope.ReferOpened? || s.scope.ReferHalfIn? || s.scope.InRefer? ==> !p.transfer.NoTransfer?)
    && (p.own.Outstanding? ==> p.own.dialog < p.next && p.own.dialog != p.candidate)
  }

  /** All parts of the packet come from this configuration. */
  predicate Built(p: Packet, c: Config) {
    match p
    case Sent(format, pt, ip, _, _) => format == c.media.txFormat && pt == c.media.txPayloadType && ip == c.ip && ip != 0
    case Received(source, pt, format, _, _) =>
      (c.ip == 0 || source == c.ip) && pt in c.media.rxFormats && format == c.media.rxFormats[pt]
  }

  /** The packet was built from one of the stable configurations in force while it was made. */
  predicate FromOne(p: Packet, stable: seq<Config>) {
    p.until <= |stable| && exists k :: p.index <= k < p.until && Built(p, stable[k])
  }

  /** The reader passes the epoch checks to come and has yet to read something: a write now may show in its packet. */
  predicate AtRisk(s: State, r: Reader) {
    r.count == s.count &&
    match r.stage
    case SendingTo(_, _) => false
    case Receiving(source, _) => s.live.ip == 0 || source == s.live.ip
    case ReceivingAs(_, _, _, _) => false
    case _ => true
  }

  /** What a reader has read belongs to the stable configuration, unless its epoch is over. */
  predicate ReaderHolds(s: State, r: Reader)
    requires s.log.stable != []
  {
    && r.count <= s.count && r.count % 2 == 0 && r.index < |s.log.stable|
    && (s.scope.Writing? || s.scope.WritingIp? ==> !AtRisk(s, r))
    && (!IsSender(r.stage) ==> s.rtp.looping)
    && (r.count == s.count ==>
          match r.stage
          case SendingMedia(m) => m == Last(s).media && r.index == |s.log.stable| - 1
          case SendingChecked(m) => m == Last(s).media && r.index == |s.log.stable| - 1
          case SendingTo(m, ip) => FromOne(SentBy(s, m, ip, r.index), s.log.stable)
          case ReceivingFrom(source, _, _) => (Last(s).ip == 0 || source == Last(s).ip) && r.index == |s.log.stable| - 1
          case ReceivingAs(source, pt, _, format) => FromOne(ReceivedBy(s, source, pt, format, r.index), s.log.stable)
          case _ => true)
  }

  predicate ReadersHold(s: State)
    requires s.log.stable != []
  {
    forall id :: id in s.rtp.readers ==> ReaderHolds(s, s.rtp.readers[id])
  }

  /** The RTP task is one thread. */
  predicate OneReceiver(readers: map<nat, Reader>) {
    forall i, j :: i in readers && j in readers && !IsSender(readers[i].stage) && !IsSender(readers[j].stage) ==> i == j
  }

  predicate PacketsFromOne(s: State) {
    forall i :: 0 <= i < |s.rtp.packets| ==> FromOne(s.rtp.packets[i], s.log.stable)
  }

  /** No reader has been at one packet while the 32-bit epoch went all the way round. */
  predicate NoWrap(s: State) {
    Within(s.count, s.rtp.readers)
  }

  predicate Within(count: nat, readers: map<nat, Reader>) {
    forall id :: id in readers ==> count - readers[id].count < 0x1_0000_0000
  }

  predicate Inv(s: State) {
    ScopeInv(s) && ChangesInv(s) && SipInv(s) && ReadersHold(s) && OneReceiver(s.rtp.readers) && PacketsFromOne(s)
  }

  // ---------- The guards ----------

  /** A retry of our own re-INVITE is waiting, falls due and can be sent while a REFER scope is pumped. */
  predicate RetriesInScope(s: State, l: Label) {
    s.scope.InRefer? && s.rtp.active && s.sip.own.WaitingRetry? && l == Signalled(RetryDue(true))
  }

  /** Our own re-INVITE is outstanding on the dialog that a commit retires. */
  predicate CommitsOutstanding(s: State, l: Label) {
    && s.scope.InRefer? && s.sip.transfer.Pending? && l == Advance(true)
    && s.sip.own.Outstanding? && s.sip.own.dialog == s.sip.owner
  }

  /** The RTP path runs or the RTP task may take a packet, or one begun before still has something to read. */
  predicate Exposed(s: State) {
    s.rtp.running || (s.rtp.looping && s.rtp.active) || exists id :: id in s.rtp.readers && AtRisk(s, s.rtp.readers[id])
  }

  /** A negotiation outside the scopes, or a new address, while a packet can see it. */
  predicate WritesExposed(s: State, l: Label) {
    match l
    case Negotiates(kind, _, ip, _) => Handles(s, kind, ip) && Exposed(s)
    case SetRemote(_) => !s.scope.Idle? || Exposed(s)
    case _ => false
  }

  predicate Hazard(s: State, l: Label) {
    RetriesInScope(s, l) || CommitsOutstanding(s, l) || WritesExposed(s, l)
  }

  /** A run that meets none of the guards, in which no reader lives through a turn of the epoch word. */
  predicate Orderly(s: State, ls: seq<Label>)
    decreases |ls|
  {
    NoWrap(s) && (ls == [] || (!Hazard(s, ls[0]) && Orderly(Step(s, ls[0]), ls[1..])))
  }

  lemma InitialInv(config: Config, candidate: Config, video: bool)
    ensures Inv(Initial(config, candidate, video))
  {
  }

  lemma SignalKeepsSip(s: State, e: Signal)
    requires SipInv(s) && !RetriesInScope(s, Signalled(e))
    ensures SipInv(s.(sip := NextSip(s, e)))
  {
  }

  lemma AdvanceKeepsSip(s: State, commit: bool)
    requires ScopeInv(s) && SipInv(s) && !CommitsOutstanding(s, Advance(commit))
    ensures SipInv(NextScope(s, commit))
  {
  }

  lemma SipKeeps(s: State, l: Label)
    requires ScopeInv(s) && SipInv(s) && !Hazard(s, l)
    ensures SipInv(Step(s, l))
  {
    match l {
      case Signalled(e) => SignalKeepsSip(s, e);
      case Advance(commit) => AdvanceKeepsSip(s, commit);
      case _ => hide NextStage, Emitted, Epoch, Exposed, NextSip, NextScope;
    }
  }

  /** Nothing goes on but where the straight line leads, and negotiations outside the scopes have no RTP path to meet. */
  lemma AdvanceKeepsScope(s: State, commit: bool)
    requires ScopeInv(s)
    ensures ScopeInv(NextScope(s, commit))
  {
  }

  /** Every proposal opens outside the other scopes. */
  lemma ScopeKeeps(s: State, l: Label)
    requires ScopeInv(s) && SipInv(s) && !Hazard(s, l)
    ensures ScopeInv(Step(s, l))
  {
    match l {
      case Advance(commit) => AdvanceKeepsScope(s, commit);
      case _ => hide NextStage, Emitted, Epoch, NextSip, NegotiatedSip, FreshDialog, NextScope;
    }
  }

  lemma ChangesKeep(s: State, l: Label)
    requires ScopeInv(s) && ChangesInv(s) && !Hazard(s, l)
    ensures ChangesInv(Step(s, l))
    ensures Step(s, l).log.stable == s.log.stable || Step(s, l).log.stable == s.log.stable + [Step(s, l).live]
  {
    match l {
      case Advance(commit) => AdvanceChanges(s, commit);
      case _ => hide NextScope, NextStage, Emitted, Epoch, NextSip, NegotiatedSip, FreshDialog, Exposed;
    }
  }

  lemma AdvanceChanges(s: State, commit: bool)
    requires ScopeInv(s) && ChangesInv(s)
    ensures ChangesInv(NextScope(s, commit))
    ensures var s' := NextScope(s, commit); s'.log.stable == s.log.stable || s'.log.stable == s.log.stable + [s'.live]
  {
  }

  /** More stable configurations leave a packet as it is, and one that is let through later. */
  lemma StaysFromOne(p: Packet, stable: seq<Config>, more: seq<Config>)
    requires stable <= more && FromOne(p, stable)
    ensures FromOne(p, more)
    ensures FromOne(p.(until := |more|), more)
  {
    hide Built;
    var k :| p.index <= k < p.until && Built(p, stable[k]);
    assert more[k] == stable[k];
    BuiltAnyTime(p, more[k], |more|);
  }

  lemma BuiltAnyTime(p: Packet, c: Config, until: nat)
    ensures Built(p.(until := until), c) == Built(p, c)
  {
  }

  /** A step that leaves a reader alone keeps what it holds, if none is at risk where the stable configuration changes. */
  lemma ReaderStays(s: State, s': State, r: Reader)
    requires s.log.stable != [] && ReaderHolds(s, r) && s.count <= s'.count
    requires s'.log.stable == s.log.stable || s'.log.stable == s.log.stable + [s'.live]
    requires s'.count == s.count && s'.log.stable != s.log.stable ==> !AtRisk(s, r)
    requires !IsSender(r.stage) ==> s'.rtp.looping
    requires s'.scope.Writing? || s'.scope.WritingIp? ==> !AtRisk(s', r)
    ensures ReaderHolds(s', r)
  {
    if r.count == s.count {
      match r.stage {
        case SendingTo(m, ip) => StaysFromOne(SentBy(s, m, ip, r.index), s.log.stable, s'.log.stable);
        case ReceivingAs(source, pt, _, format) =>
          StaysFromOne(ReceivedBy(s, source, pt, format, r.index), s.log.stable, s'.log.stable);
        case _ =>
      }
    }
    hide FromOne;
  }

  /** Where the stable configuration changes within an epoch, or a negotiation begins or goes on, no reader is at risk. */
  lemma NoneAtRisk(s: State, l: Label, id: nat)
    requires ScopeInv(s) && id in s.rtp.readers && ReaderHolds(s, s.rtp.readers[id]) && !Hazard(s, l)
    requires !l.ReaderStep? && !l.StartSending? && !l.StartReceiving?
    ensures var s', r := Step(s, l), s.rtp.readers[id];
            && s.count <= s'.count
            && (s'.count == s.count && s'.log.stable != s.log.stable ==> !AtRisk(s, r))
            && (!IsSender(r.stage) ==> s'.rtp.looping)
            && (s'.scope.Writing? || s'.scope.WritingIp? ==> !AtRisk(s', r))
  {
    hide FromOne, NextSip, NegotiatedSip, FreshDialog;
  }

  lemma ReadersAlone(s: State, l: Label)
    requires !l.ReaderStep? && !l.StartSending? && !l.StartReceiving?
    ensures Step(s, l).rtp.readers == s.rtp.readers && Step(s, l).rtp.packets == s.rtp.packets
  {
    match l {
      case Advance(commit) => AdvanceAlone(s, commit);
      case _ => hide NextScope, NextSip, NegotiatedSip, FreshDialog, NoReceiver;
    }
  }

  lemma AdvanceAlone(s: State, commit: bool)
    ensures NextScope(s, commit).rtp.readers == s.rtp.readers && NextScope(s, commit).rtp.packets == s.rtp.packets
  {
  }

  lemma {:induction false} ScopesKeep(s: State, l: Label)
    requires Inv(s) && !l.ReaderStep? && !l.StartSending? && !l.StartReceiving? && !Hazard(s, l)
    ensures Inv(Step(s, l))
  {
    var s' := Step(s, l);
    SipKeeps(s, l);
    ScopeKeeps(s, l);
    ChangesKeep(s, l);
    ReadersAlone(s, l);
    hide Step, Hazard, ChangesInv, SipInv;
    forall id | id in s'.rtp.readers
      ensures ReaderHolds(s', s'.rtp.readers[id])
    {
      assert s.rtp.readers[id] == s'.rtp.readers[id] && ReaderHolds(s, s.rtp.readers[id]);
      NoneAtRisk(s, l, id);
      hide ScopeInv, ReaderHolds, AtRisk;
      ReaderStays(s, s', s.rtp.readers[id]);
    }
    forall i | 0 <= i < |s'.rtp.packets|
      ensures FromOne(s'.rtp.packets[i], s'.log.stable)
    {
      assert FromOne(s.rtp.packets[i], s.log.stable);
      hide FromOne, ScopeInv, ReaderHolds;
      StaysFromOne(s.rtp.packets[i], s.log.stable, s'.log.stable);
    }
  }

  /** The two words are the same only if the epochs are, unless the word went all the way round. */
  lemma SameIs(s: State, count: nat)
    requires count <= s.count < count + 0x1_0000_0000
    ensures Same(s, count) <==> s.count == count
  {
  }

  /** What one step of a reader reads belongs to the stable configuration, and so does the packet it lets through. */
  lemma ReaderKeeps(s: State, r: Reader)
    requires ScopeInv(s) && ReaderHolds(s, r) && s.count - r.count < 0x1_0000_0000
    ensures NextStage(s, r).Some? ==> ReaderHolds(s, Reader(r.count, FirstRead(s, r), NextStage(s, r).value))
    ensures forall p :: p in Emitted(s, r) ==> FromOne(p, s.log.stable)
  {
    SameIs(s, r.count);
    hide Same, Epoch;
    if r.count == s.count {
      assert Last(s) == s.log.stable[|s.log.stable| - 1] && r.index <= |s.log.stable| - 1;
    }
  }

  lemma ReadersKeep(s: State, id: nat)
    requires Inv(s) && NoWrap(s) && id in s.rtp.readers
    ensures Inv(StepReader(s, id))
  {
    var r, s' := s.rtp.readers[id], StepReader(s, id);
    ReaderKeeps(s, r);
    assert SipInv(s') && ScopeInv(s') && ChangesInv(s');
    hide NextStage, Emitted, FromOne, ScopeInv, SipInv, ChangesInv;
    forall k | k in s'.rtp.readers
      ensures ReaderHolds(s', s'.rtp.readers[k])
    {
      assert k != id ==> ReaderHolds(s, s.rtp.readers[k]);
    }
  }

  lemma StartsKeep(s: State, l: Label)
    requires Inv(s) && (l.StartSending? || l.StartReceiving?)
    ensures Inv(Step(s, l))
  {
    WrapParity(s.count);
    var s' := Step(s, l);
    hide FromOne;
    forall k | k in s'.rtp.readers
      ensures ReaderHolds(s', s'.rtp.readers[k])
    {
      assert k in s.rtp.readers ==> ReaderHolds(s, s.rtp.readers[k]);
    }
  }

  lemma StepKeeps(s: State, l: Label)
    requires Inv(s) && NoWrap(s) && !Hazard(s, l)
    ensures Inv(Step(s, l))
  {
    match l {
      case ReaderStep(id) =>
        if id in s.rtp.readers {
          ReadersKeep(s, id);
        }
      case StartSending(_) => StartsKeep(s, l);
      case StartReceiving(_, _, _) => StartsKeep(s, l);
      case _ => ScopesKeep(s, l);
    }
  }

  lemma {:induction false} RunKeeps(s: State, ls: seq<Label>)
    requires Inv(s) && Orderly(s, ls)
    ensures Inv(Run(s, ls))
    decreases |ls|
  {
    if ls != [] {
      StepKeeps(s, ls[0]);
      hide Inv, NoWrap, Step, Hazard;
      RunKeeps(Step(s, ls[0]), ls[1..]);
    }
  }

  // ---------- What the epoch promises ----------

  /**
   In every orderly run the epoch is odd exactly while a proposal or a REFER scope is open, no proposal opens inside a
   REFER scope, and in between the configuration is the stable one.
   */
  lemma OddMeansOpen(config: Config, candidate: Config, video: bool, ls: seq<Label>)
    requires Orderly(Initial(config, candidate, video), ls)
    ensures var s := Run(Initial(config, candidate, video), ls);
            && (Epoch(s) % 2 == 1 <==> !Unscoped(s.scope))
            && (AnswerMatches(s) ==> s.scope.Idle?)
            && s.log.stable != []
            && (s.scope.Idle? ==> s.live == Last(s))
            && (!s.scope.Idle? && Unscoped(s.scope) ==> !s.rtp.running && !(s.rtp.looping && s.rtp.active))
  {
    InitialInv(config, candidate, video);
    RunKeeps(Initial(config, candidate, video), ls);
  }

  /**
   Every RTP packet sent takes its format, payload type and destination address, and every packet received takes its
   format and passes its address check, from one stable configuration in force since it was begun, in every orderly
   interleaving with calls, proposals, REFER scopes and REFER commits.
   */
  lemma PacketsUseOneConfiguration(config: Config, candidate: Config, video: bool, ls: seq<Label>, i: nat)
    requires Orderly(Initial(config, candidate, video), ls)
    requires i < |Run(Initial(config, candidate, video), ls).rtp.packets|
    ensures var s := Run(Initial(config, candidate, video), ls); FromOne(s.rtp.packets[i], s.log.stable)
  {
    InitialInv(config, candidate, video);
    RunKeeps(Initial(config, candidate, video), ls);
  }

  /**
   Proposals and uncommitted REFER scopes leave the configuration as they found it: only a commit and a negotiation
   outside the scopes change it.
   */
  lemma OnlyCommitsAndNegotiationsChange(config: Config, candidate: Config, video: bool, ls: seq<Label>, k: nat)
    requires Orderly(Initial(config, candidate, video), ls)
    requires k + 1 < |Run(Initial(config, candidate, video), ls).log.stable|
    ensures var s := Run(Initial(config, candidate, video), ls);
            k !in s.log.commits && k !in s.log.negotiated ==> s.log.stable[k + 1] == s.log.stable[k]
  {
    InitialInv(config, candidate, video);
    RunKeeps(Initial(config, candidate, video), ls);
  }
}
