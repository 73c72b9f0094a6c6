/**
 The two-surface JPEG pipeline of esphome/components/p4_video_renderer/p4_video_renderer.cpp as a machine of
 interleaved steps: the decoder task, the main `loop` on its LVGL or its direct-display path, LVGL's refreshes, and
 `set_video_active(false)` on another task. Each step is one atomic access or one blocking hardware transaction,
 under sequential consistency. A refresh the renderer asked for may run beside `loop`; one that something else on
 the page asked for runs between two calls of `loop`.
 */
module P4Renderer {
  import opened Machine

  datatype Side = A | B {
    function Other(): Side {
      if A? then B else A
    }
  }

  /** The frame each surface holds, by the order of decoding; 0 for none. */
  datatype Contents = Contents(a: nat, b: nat) {
    function At(i: Side): nat {
      if i.A? then a else b
    }

    function Put(i: Side, frame: nat): Contents {
      if i.A? then Contents(frame, b) else Contents(a, frame)
    }
  }

  datatype Decoder =
    | Waiting
    | FoundFree
    | Writing(index: Side)
    | Decoded(index: Side)

  datatype Loop =
    | Away
    | Locked
    | Chose(index: Side)
    | FrontMoved(index: Side)
    | Swapped(index: Side)
    | Requested(index: Side)
    | Scaling(index: Side)
    | Scaled(index: Side)
    | Fronted(index: Side)
    | Drawing(index: Side)
    | GivingUp(index: Side)
    | Leaving

  datatype Stopper = Elsewhere | Clearing | Releasing

  /** LVGL's refresh, with the surface and the frame it began to read. */
  datatype Refresh = NoRefresh | Reading(index: Side, frame: nat)

  datatype Mutex = Free | ByLoop | ByStopper

  /** What has become of the frames: how many were decoded, published and dropped, which were presented, in order, and
   which of them LVGL has drawn. */
  datatype Ledger = Ledger(decoded: nat, published: nat, dropped: nat, presented: seq<nat>, refreshed: seq<nat>)

  datatype State = State(
    direct: bool,
    front: Side,
    pending: Option<Side>,
    contents: Contents,
    shown: Option<Side>,
    inFlight: bool,
    refresh: Refresh,
    decoder: Decoder,
    loop: Loop,
    stopper: Stopper,
    mutex: Mutex,
    ledger: Ledger)

  function Initial(direct: bool): State {
    State(direct, A, None, Contents(0, 0), None, false, NoRefresh, Waiting, Away, Elsewhere, Free, Ledger(0, 0, 0, [], []))
  }

  datatype Label = DecoderStep(pick: bool) | LoopStep(pick: bool) | RefreshStep | StopStep

  // ---------- The decoder: the JPEG part of rx_task_ ----------

  function NextDecoder(s: State, pick: bool): State {
    match s.decoder
    case Waiting => if s.pending.None? then s.(decoder := FoundFree) else s
    case FoundFree =>
      var index := s.front.Other();
      s.(decoder := Writing(index),
         contents := s.contents.Put(index, s.ledger.decoded + 1),
         ledger := s.ledger.(decoded := s.ledger.decoded + 1))
    case Writing(index) => s.(decoder := if pick then Decoded(index) else Waiting)
    case Decoded(index) =>
      s.(decoder := Waiting, pending := Some(index), ledger := s.ledger.(published := s.ledger.published + 1))
  }

  // ---------- The main loop and present_surface_direct_ ----------

  function Present(l: Ledger, frame: nat): Ledger {
    l.(presented := l.presented + [frame])
  }

  function NextLoop(s: State, pick: bool): State {
    match s.loop
    case Away => if s.mutex.Free? && (s.refresh.NoRefresh? || s.inFlight) then s.(mutex := ByLoop, loop := Locked) else s
    case Locked => s.(loop := if !s.inFlight && s.pending.Some? && pick then Chose(s.pending.value) else Leaving)
    case Chose(p) =>
      if s.direct then s.(loop := if pick then Scaling(p) else GivingUp(p))
      else s.(front := p, loop := FrontMoved(p))
    case FrontMoved(p) => s.(shown := Some(p), loop := Swapped(p), ledger := Present(s.ledger, s.contents.At(p)))
    case Swapped(p) => s.(inFlight := true, loop := Requested(p))
    case Requested(p) => s.(pending := None, loop := Leaving)
    case Scaling(p) =>
      if pick then s.(contents := s.contents.Put(p.Other(), s.contents.At(p)), loop := Scaled(p))
      else s.(loop := GivingUp(p))
    case Scaled(p) => s.(front := p.Other(), loop := Fronted(p))
    case Fronted(p) =>
      if s.pending == Some(p) then
        s.(pending := None, shown := Some(p.Other()), loop := Drawing(p),
           ledger := Present(s.ledger, s.contents.At(p.Other())))
      else s.(loop := GivingUp(p))
    case Drawing(p) => s.(shown := None, loop := Leaving)
    case GivingUp(p) =>
      if s.pending == Some(p) then
        s.(pending := None, loop := Leaving, ledger := s.ledger.(dropped := s.ledger.dropped + 1))
      else s.(loop := Leaving)
    case Leaving => s.(mutex := Free, loop := Away)
  }

  // ---------- LVGL and on_display_refresh_ready_ ----------

  /** A refresh begins to read the image it finds in the descriptor; when it is over, the presentation is. */
  function NextRefresh(s: State): State {
    match s.refresh
    case NoRefresh =>
      if !s.direct && s.shown.Some? && (s.inFlight || s.loop.Away?) then
        s.(refresh := Reading(s.shown.value, s.contents.At(s.shown.value)))
      else s
    case Reading(_, frame) =>
      s.(refresh := NoRefresh, inFlight := false,
         ledger := if s.inFlight then s.ledger.(refreshed := s.ledger.refreshed + [frame]) else s.ledger)
  }

  // ---------- set_video_active(false) ----------

  function NextStopper(s: State): State {
    match s.stopper
    case Elsewhere => if s.mutex.Free? then s.(mutex := ByStopper, stopper := Clearing) else s
    case Clearing =>
      s.(pending := None, stopper := Releasing,
         ledger := if s.pending.Some? then s.ledger.(dropped := s.ledger.dropped + 1) else s.ledger)
    case Releasing => s.(mutex := Free, stopper := Elsewhere)
  }

  function Step(s: State, l: Label): State {
    match l
    case DecoderStep(pick) => NextDecoder(s, pick)
    case LoopStep(pick) => NextLoop(s, pick)
    case RefreshStep => NextRefresh(s)
    case StopStep => NextStopper(s)
  }

  function Run(s: State, ls: seq<Label>): State
    decreases |ls|
  {
    if ls == [] then s else Run(Step(s, ls[0]), ls[1..])
  }

  // ---------- The invariant ----------

  /** The pending surface the loop has taken up and not yet released. */
  function Taken(l: Loop): Option<Side> {
    if l.Chose? || l.FrontMoved? || l.Swapped? || l.Requested? || l.Scaling? || l.Scaled? || l.Fronted? || l.GivingUp?
    then Some(l.index) else None
  }

  predicate MutexInv(s: State) {
    && (s.mutex.ByLoop? <==> !s.loop.Away?)
    && (s.mutex.ByStopper? <==> !s.stopper.Elsewhere?)
    && (Taken(s.loop).Some? ==> s.pending == Taken(s.loop))
    && (s.loop.Drawing? || s.loop.Scaling? || s.loop.Scaled? || s.loop.Fronted? || s.loop.GivingUp? ==> s.direct)
    && (s.loop.FrontMoved? || s.loop.Swapped? || s.loop.Requested? ==> !s.direct)
  }

  /** A decoder past its check works on the back surface, and nothing is pending; what is pending is not the front. */
  predicate SurfaceInv(s: State) {
    && (!s.decoder.Waiting? ==> s.pending.None?)
    && (s.decoder.Writing? || s.decoder.Decoded? ==> s.decoder.index == s.front.Other())
    && (s.pending.Some? && !s.loop.FrontMoved? && !s.loop.Swapped? && !s.loop.Requested? ==> s.pending.value == s.front.Other())
    && (s.loop.FrontMoved? || s.loop.Swapped? || s.loop.Requested? ==> s.front == s.loop.index)
    && (s.shown.Some? && !s.loop.FrontMoved? ==> s.shown == Some(s.front))
    && (s.direct && s.shown.Some? ==> s.loop.Drawing?)
    && (s.loop.Drawing? ==> s.shown == Some(s.front) && s.loop.index == s.front.Other())
  }

  function Last(l: Ledger): nat {
    if l.presented == [] then 0 else l.presented[|l.presented| - 1]
  }

  predicate Increasing(frames: seq<nat>) {
    forall i, j :: 0 <= i < j < |frames| ==> frames[i] < frames[j]
  }

  /** The counts balance, and what a surface in use holds is the frame it is used for. */
  predicate LedgerInv(s: State) {
    && s.ledger.published == |s.ledger.presented| + s.ledger.dropped
                             + (if s.pending.Some? && !s.loop.Swapped? && !s.loop.Requested? then 1 else 0)
    && (s.decoder.Writing? || s.decoder.Decoded? ==> s.contents.At(s.decoder.index) == s.ledger.decoded)
    && (s.pending.Some? ==> s.contents.At(s.pending.value) == s.ledger.decoded)
    && (s.loop.Scaled? || s.loop.Fronted? ==> s.contents.At(s.loop.index.Other()) == s.ledger.decoded)
    && (s.shown.Some? ==> s.ledger.presented != [] && s.contents.At(s.shown.value) == Last(s.ledger))
    && Last(s.ledger) <= s.ledger.decoded
    && ((s.pending.Some? && !s.loop.Swapped? && !s.loop.Requested?) || s.decoder.Writing? || s.decoder.Decoded? ==>
          Last(s.ledger) < s.ledger.decoded)
  }

  /** A refresh reads what is shown, and the frame it began with; no swap is under way while a presentation is in flight. */
  predicate RefreshInv(s: State) {
    && (s.direct ==> !s.inFlight && s.refresh.NoRefresh?)
    && (s.inFlight ==> s.shown.Some? && !s.loop.Chose? && !s.loop.FrontMoved? && !s.loop.Swapped?)
    && (s.loop.Swapped? ==> s.shown == Some(s.loop.index))
    && (s.loop.Requested? ==> s.shown == Some(s.loop.index))
    && (s.refresh.Reading? ==>
          s.shown == Some(s.refresh.index) && s.contents.At(s.refresh.index) == s.refresh.frame
          && (s.inFlight || s.loop.Away?))
    && (!s.direct ==> s.ledger.presented ==
                      s.ledger.refreshed + (if s.inFlight || s.loop.Swapped? then [Last(s.ledger)] else []))
  }

  predicate Inv(s: State) {
    MutexInv(s) && SurfaceInv(s) && LedgerInv(s) && RefreshInv(s) && Increasing(s.ledger.presented)
  }

  lemma PresentIncreases(l: Ledger, frame: nat)
    requires Increasing(l.presented) && Last(l) < frame
    ensures Increasing(Present(l, frame).presented) && Last(Present(l, frame)) == frame
  {
    var frames := Present(l, frame).presented;
    forall i, j | 0 <= i < j < |frames|
      ensures frames[i] < frames[j]
    {
      if j == |l.presented| && i < j - 1 {
        assert l.presented[i] < l.presented[j - 1];
      }
    }
  }

  lemma DecoderKeeps(s: State, pick: bool)
    requires Inv(s)
    ensures Inv(NextDecoder(s, pick))
  {
    hide Increasing;
    DecoderKeepsLedger(s, pick);
    hide LedgerInv;
  }

  lemma DecoderKeepsLedger(s: State, pick: bool)
    requires MutexInv(s) && SurfaceInv(s) && LedgerInv(s)
    ensures LedgerInv(NextDecoder(s, pick))
  {
  }

  lemma LoopKeeps(s: State, pick: bool)
    requires Inv(s)
    ensures Inv(NextLoop(s, pick))
  {
    LoopKeepsLedger(s, pick);
    LoopKeepsRefresh(s, pick);
    LoopKeepsSurfaces(s, pick);
    LoopKeepsOrder(s, pick);
    hide NextLoop, MutexInv, SurfaceInv, LedgerInv, RefreshInv, Increasing;
  }

  lemma LoopKeepsSurfaces(s: State, pick: bool)
    requires MutexInv(s) && SurfaceInv(s)
    ensures MutexInv(NextLoop(s, pick)) && SurfaceInv(NextLoop(s, pick))
  {
    hide Present;
  }

  lemma LoopKeepsOrder(s: State, pick: bool)
    requires MutexInv(s) && LedgerInv(s) && Increasing(s.ledger.presented)
    ensures Increasing(NextLoop(s, pick).ledger.presented)
  {
    if s.loop.FrontMoved? {
      PresentIncreases(s.ledger, s.contents.At(s.loop.index));
    } else if s.loop.Fronted? {
      PresentIncreases(s.ledger, s.contents.At(s.loop.index.Other()));
    }
    hide Increasing, Present;
  }

  lemma LoopKeepsRefresh(s: State, pick: bool)
    requires MutexInv(s) && SurfaceInv(s) && LedgerInv(s) && RefreshInv(s)
    ensures RefreshInv(NextLoop(s, pick))
  {
  }

  lemma LoopKeepsLedger(s: State, pick: bool)
    requires MutexInv(s) && SurfaceInv(s) && LedgerInv(s)
    ensures LedgerInv(NextLoop(s, pick))
  {
  }

  lemma RefreshKeeps(s: State)
    requires Inv(s)
    ensures Inv(NextRefresh(s))
  {
    hide Increasing;
  }

  lemma StopperKeeps(s: State)
    requires Inv(s)
    ensures Inv(NextStopper(s))
  {
    hide Increasing;
  }

  lemma DirectStays(s: State, l: Label)
    ensures Step(s, l).direct == s.direct
  {
  }

  lemma {:induction false} RunKeeps(s: State, ls: seq<Label>)
    requires Inv(s)
    ensures Inv(Run(s, ls)) && Run(s, ls).direct == s.direct
    decreases |ls|
  {
    if ls != [] {
      hide Inv, NextDecoder, NextLoop, NextRefresh, NextStopper;
      match ls[0] {
        case DecoderStep(pick) => DecoderKeeps(s, pick);
        case LoopStep(pick) => LoopKeeps(s, pick);
        case RefreshStep => RefreshKeeps(s);
        case StopStep => StopperKeeps(s);
      }
      DirectStays(s, ls[0]);
      RunKeeps(Step(s, ls[0]), ls[1..]);
    }
  }

  // ---------- What the pipeline promises ----------

  /**
   In every interleaving, on both display paths: while the decoder writes a surface nothing is pending, the surface is
   the back one, it is not the one shown, no refresh reads it, and no hardware copy reads or writes it.
   */
  lemma DecoderWritesTheBackOnly(direct: bool, ls: seq<Label>)
    ensures var s := Run(Initial(direct), ls);
            s.decoder.Writing? ==>
              && s.pending.None? && s.decoder.index == s.front.Other()
              && s.shown != Some(s.decoder.index)
              && !(s.refresh.Reading? && s.refresh.index == s.decoder.index)
              && !s.loop.Scaling? && !(s.loop.Drawing? && s.loop.index.Other() == s.decoder.index)
  {
    RunKeeps(Initial(direct), ls);
  }

  /** The release that follows a hardware copy always finds the surface it published: its failure branch is dead. */
  lemma ReleaseNeverFails(direct: bool, ls: seq<Label>)
    ensures var s := Run(Initial(direct), ls);
            s.loop.Fronted? || s.loop.GivingUp? ==> s.pending == Some(s.loop.index)
  {
    RunKeeps(Initial(direct), ls);
  }

  /** Every published frame is presented, dropped or still pending, and nothing else is presented or dropped. */
  lemma FramesAreConserved(direct: bool, ls: seq<Label>)
    ensures var s := Run(Initial(direct), ls);
            s.loop.Away? ==>
              s.ledger.published == |s.ledger.presented| + s.ledger.dropped + if s.pending.Some? then 1 else 0
  {
    RunKeeps(Initial(direct), ls);
  }

  /** Frames are presented whole, in the order they were decoded, none twice; what is shown is the last one, intact. */
  lemma PresentedInOrder(direct: bool, ls: seq<Label>)
    ensures var s := Run(Initial(direct), ls);
            && Increasing(s.ledger.presented)
            && (s.shown.Some? ==> s.ledger.presented != [] && s.contents.At(s.shown.value) == Last(s.ledger))
  {
    RunKeeps(Initial(direct), ls);
  }

  /**
   On the LVGL path no presented frame is skipped: LVGL has drawn all of them, in order, but the one in flight, and a
   refresh sees one whole frame from its beginning to its end.
   */
  lemma EveryFrameIsRefreshed(ls: seq<Label>)
    ensures var s := Run(Initial(false), ls);
            && (s.loop.Away? ==>
                  s.ledger.presented == s.ledger.refreshed + if s.inFlight then [Last(s.ledger)] else [])
            && (s.refresh.Reading? ==> s.contents.At(s.refresh.index) == s.refresh.frame)
  {
    RunKeeps(Initial(false), ls);
  }
}
