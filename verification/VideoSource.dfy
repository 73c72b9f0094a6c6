/**
 The buffer protocol of the H.264 camera source
 (esphome/components/esp_h264_video_source/esp_h264_video_source.cpp) as a machine of interleaved steps.
 Every step is one atomic load, store, compare-and-swap or semaphore operation of one thread, under sequential
 consistency. Threads: any number of camera callbacks, the encoder worker, any number of consumers that give
 encoded slots back, controllers that hold the control mutex, and the main task's shutdown.
 */
module VideoSource {
  import opened Machine

  /** The two slots of a table, and an index into it. */
  datatype Two = First | Second

  datatype TxSlots = TxSlots(first: TxSlot, second: TxSlot) {
    function At(i: Two): TxSlot {
      if i.First? then first else second
    }

    function Put(i: Two, slot: TxSlot): TxSlots {
      if i.First? then TxSlots(slot, second) else TxSlots(first, slot)
    }
  }

  datatype EncodedSlots = EncodedSlots(first: nat, second: nat) {
    function At(e: Two): nat {
      if e.First? then first else second
    }

    function Put(e: Two, value: nat): EncodedSlots {
      if e.First? then EncodedSlots(value, second) else EncodedSlots(first, value)
    }
  }

  /** The tail `if (!tx_active_ && tx_slots_idle_()) give(tx_idle_)` that every release ends with: `Scan(k)` has passed `k` reads. */
  datatype Tail = LoadActive | Scan(passed: nat) | GiveIdle

  datatype Callback =
    | Counted
    | Admitted
    | Claim(index: Two, generation: u32)
    | Owns(index: Two, generation: u32)
    | Recheck(index: Two, generation: u32)
    | RecheckGeneration(index: Two, generation: u32)
    | Publish(index: Two, generation: u32)
    | Release(index: Two)
    | ReleaseTail(tail: Tail)
    | Leave
    | LastTail(tail: Tail)

  datatype Worker =
    | Top
    | LookFirst
    | LookSecond(sawFirst: bool)
    | TryClaim(index: Two)
    | IdleTail(tail: Tail)
    | Asleep
    | Holding(index: Two)
    | HoldingGeneration(index: Two)
    | GrabEncoded(index: Two, encoded: Two)
    | Encoding(index: Two, encoded: Two)
    | AwaitMutex(index: Two, encoded: Two)
    | CheckActive(index: Two, encoded: Two)
    | CheckGeneration(index: Two, encoded: Two)
    | HandOver(index: Two, encoded: Two)
    | Unlock(index: Two, encoded: Two)
    | DropEncoded(index: Two, encoded: Two)
    | ReleaseTx(index: Two)
    | TxTail(tail: Tail)
    | Discard(index: Two)
    | Gone

  /** What the holder of the control mutex is about to do. */
  datatype Control =
    | NotHeld
    | ByWorker
    | StartPending
    | StartReady
    | StartActivate
    | StartCamera
    | StartUndo
    | StartBump
    | StartDrain
    | StopGate(forShutdown: bool)
    | StopBump(forShutdown: bool, wasActive: bool)
    | StopDrain(forShutdown: bool)
    | ByMain

  /** The main task, from setup to the end of shutdown. */
  datatype Main =
    | Up
    | Pending
    | NotReady
    | Stopping
    | Stopped
    | AwaitWorker
    | FinalScan(passed: nat)
    | FinalMutex
    | Freeing
    | Down

  datatype TxSlot = TxSlot(state: nat, generation: u32)

  /** The flags that admit callbacks, publications and starts; `generation` counts calls. */
  datatype Gate = Gate(
    active: bool,
    generation: u32,
    running: bool,
    callbackSet: bool,
    shutdownPending: bool,
    encoderReady: bool,
    freed: bool)

  /** The words the idle check reads, and the semaphore it gives. */
  datatype Slots = Slots(tx: TxSlots, encoded: EncodedSlots, inFlight: nat, idleGiven: bool)

  datatype State = State(
    gate: Gate,
    slots: Slots,
    callbacks: map<nat, Callback>,
    worker: Worker,
    lent: set<Two>,
    releases: map<nat, Tail>,
    control: Control,
    main: Main)

  const INITIAL := State(
    Gate(false, 0, true, false, false, true, false),
    Slots(TxSlots(TxSlot(0, 0), TxSlot(0, 0)), EncodedSlots(0, 0), 0, false),
    map[], Top, {}, map[], NotHeld, Up)

  datatype Label =
    | Arrive(id: nat)
    | CallbackStep(id: nat, pick: bool)
    | WorkerStep(pick: bool)
    | GiveBack(encodedSlot: Two, id: nat)
    | ReleaseStep(id: nat)
    | TakeMutexToStart
    | TakeMutexToStop
    | ControlStep(pick: bool)
    | ClearCallback
    | TakeIdle
    | MainStep

  /** Read `k` of `tx_slots_idle_`: callbacks in flight, then the two TX slots, then the two encoded slots. */
  predicate ReadsFree(s: State, k: nat) {
    if k == 0 then s.slots.inFlight == 0
    else if k == 1 then s.slots.tx.first.state == 0
    else if k == 2 then s.slots.tx.second.state == 0
    else if k == 3 then s.slots.encoded.first == 0
    else if k == 4 then s.slots.encoded.second == 0
    else true
  }

  /** One step of a tail; `None` when the tail is over. */
  function NextTail(s: State, tail: Tail): Option<Tail> {
    match tail
    case LoadActive => if s.gate.active then None else Some(Scan(0))
    case Scan(k) => if !ReadsFree(s, k) then None else if k >= 4 then Some(GiveIdle) else Some(Scan(k + 1))
    case GiveIdle => None
  }

  function SetTx(s: State, i: Two, value: nat): State {
    s.(slots := s.slots.(tx := s.slots.tx.Put(i, s.slots.tx.At(i).(state := value))))
  }

  function SetEncoded(s: State, e: Two, value: nat): State {
    s.(slots := s.slots.(encoded := s.slots.encoded.Put(e, value)))
  }

  // ---------- Camera callbacks: consume_raw_video_frame ----------

  /** Where callback `c` goes; `None` when it is over. */
  function NextCallbackPlace(s: State, c: nat, pick: bool): Option<Callback>
    requires c in s.callbacks
  {
    match s.callbacks[c]
    case Counted => Some(if s.gate.active then Admitted else Leave)
    case Admitted => Some(if pick then Claim(First, s.gate.generation) else Leave)
    case Claim(i, g) =>
      Some(if s.slots.tx.At(i).state == 0 then Owns(i, g) else if i.First? then Claim(Second, g) else Leave)
    case Owns(i, g) => Some(if pick then Recheck(i, g) else Release(i))
    case Recheck(i, g) => Some(if s.gate.active then RecheckGeneration(i, g) else Release(i))
    case RecheckGeneration(i, g) => Some(if s.gate.generation == g then Publish(i, g) else Release(i))
    case Publish(i, g) => Some(Leave)
    case Release(i) => Some(ReleaseTail(LoadActive))
    case ReleaseTail(t) => Some(if NextTail(s, t).Some? then ReleaseTail(NextTail(s, t).value) else Leave)
    case Leave => if s.slots.inFlight == 1 then Some(LastTail(LoadActive)) else None
    case LastTail(t) => if NextTail(s, t).Some? then Some(LastTail(NextTail(s, t).value)) else None
  }

  /** The compare-and-swap of a free TX slot to 1, the publication of a filled one, and its release. */
  function TxAfterCallback(s: State, pc: Callback): TxSlots {
    match pc
    case Claim(i, g) => if s.slots.tx.At(i).state == 0 then SetTx(s, i, 1).slots.tx else s.slots.tx
    case Publish(i, g) => s.slots.tx.Put(i, TxSlot(2, g))
    case Release(i) => SetTx(s, i, 0).slots.tx
    case _ => s.slots.tx
  }

  function NextCallback(s: State, c: nat, pick: bool): State
    requires c in s.callbacks
  {
    var pc, place := s.callbacks[c], NextCallbackPlace(s, c, pick);
    s.(callbacks := if place.Some? then s.callbacks[c := place.value] else s.callbacks - {c},
       slots := Slots(
         TxAfterCallback(s, pc),
         s.slots.encoded,
         if pc.Leave? && s.slots.inFlight > 0 then s.slots.inFlight - 1 else s.slots.inFlight,
         s.slots.idleGiven || pc == ReleaseTail(GiveIdle) || pc == LastTail(GiveIdle)))
  }

  // ---------- The encoder worker: tx_task_ and encode_frame_ ----------

  /** Where the worker goes. */
  function NextPlace(s: State, pick: bool): Worker {
    match s.worker
    case Top => if s.gate.running then LookFirst else Discard(First)
    case LookFirst => LookSecond(s.slots.tx.first.state == 2)
    case LookSecond(saw) =>
      if saw && s.slots.tx.second.state == 2 then TryClaim(if pick then First else Second)
      else if saw then TryClaim(First)
      else if s.slots.tx.second.state == 2 then TryClaim(Second)
      else IdleTail(LoadActive)
    case TryClaim(i) => if s.slots.tx.At(i).state == 2 then Holding(i) else Top
    case IdleTail(t) => if NextTail(s, t).Some? then IdleTail(NextTail(s, t).value) else Asleep
    case Asleep => Top
    case Holding(i) => if s.gate.active then HoldingGeneration(i) else ReleaseTx(i)
    case HoldingGeneration(i) =>
      if s.slots.tx.At(i).generation == s.gate.generation then GrabEncoded(i, First) else ReleaseTx(i)
    case GrabEncoded(i, e) =>
      if s.slots.encoded.At(e) == 0 then Encoding(i, e) else if e.First? then GrabEncoded(i, Second) else ReleaseTx(i)
    case Encoding(i, e) => if pick then AwaitMutex(i, e) else DropEncoded(i, e)
    case AwaitMutex(i, e) => if s.control.NotHeld? then CheckActive(i, e) else s.worker
    case CheckActive(i, e) => if s.gate.active then CheckGeneration(i, e) else Unlock(i, e)
    case CheckGeneration(i, e) =>
      if s.slots.tx.At(i).generation == s.gate.generation && s.gate.callbackSet then HandOver(i, e) else Unlock(i, e)
    case HandOver(i, e) => ReleaseTx(i)
    case Unlock(i, e) => DropEncoded(i, e)
    case DropEncoded(i, e) => ReleaseTx(i)
    case ReleaseTx(i) => TxTail(LoadActive)
    case TxTail(t) => if NextTail(s, t).Some? then TxTail(NextTail(s, t).value) else Top
    case Discard(i) => if i.First? then Discard(Second) else Gone
    case Gone => Gone
  }

  /** The compare-and-swaps of a queued TX slot to 3 and to 0, and the release to 0. */
  function TxAfter(s: State): TxSlots {
    match s.worker
    case TryClaim(i) => if s.slots.tx.At(i).state == 2 then SetTx(s, i, 3).slots.tx else s.slots.tx
    case ReleaseTx(i) => SetTx(s, i, 0).slots.tx
    case Discard(i) => if s.slots.tx.At(i).state == 2 then SetTx(s, i, 0).slots.tx else s.slots.tx
    case _ => s.slots.tx
  }

  /** The compare-and-swap of a free encoded slot to 1, and the store of 0. */
  function EncodedAfter(s: State): EncodedSlots {
    match s.worker
    case GrabEncoded(i, e) => if s.slots.encoded.At(e) == 0 then s.slots.encoded.Put(e, 1) else s.slots.encoded
    case DropEncoded(i, e) => s.slots.encoded.Put(e, 0)
    case _ => s.slots.encoded
  }

  function LentAfter(s: State): set<Two> {
    if s.worker.HandOver? then s.lent + {s.worker.encoded} else s.lent
  }

  function MutexAfter(s: State): Control {
    if s.worker.AwaitMutex? && s.control.NotHeld? then ByWorker
    else if s.worker.HandOver? || s.worker.Unlock? then NotHeld
    else s.control
  }

  function NextWorker(s: State, pick: bool): State {
    s.(worker := NextPlace(s, pick),
       slots := Slots(TxAfter(s), EncodedAfter(s), s.slots.inFlight,
                      s.slots.idleGiven || s.worker == IdleTail(GiveIdle) || s.worker == TxTail(GiveIdle)),
       lent := LentAfter(s),
       control := MutexAfter(s))
  }

  // ---------- Controllers: start_video and request_video_stop_ ----------

  function NextHolder(s: State, pick: bool): Control {
    match s.control
    case StartPending => if s.gate.shutdownPending then NotHeld else StartReady
    case StartReady => if s.gate.encoderReady && s.gate.running && !s.gate.active then StartActivate else NotHeld
    case StartActivate => StartCamera
    case StartCamera => if pick then NotHeld else StartUndo
    case StartUndo => StartBump
    case StartBump => StartDrain
    case StartDrain => NotHeld
    case StopGate(m) => StopBump(m, s.gate.active)
    case StopBump(m, _) => StopDrain(m)
    case StopDrain(_) => NotHeld
    case _ => s.control
  }

  function ActiveAfter(s: State): bool {
    s.control.StartActivate? || (s.gate.active && !s.control.StartUndo? && !s.control.StopGate?)
  }

  /** A start takes a fresh generation; an undone start and a stop of a running source take another. */
  function GenerationAfter(s: State): u32 {
    if NextHolder(s, true).StartActivate? || s.control.StartBump? || (s.control.StopBump? && s.control.wasActive)
    then Wrap32(s.gate.generation + 1) else s.gate.generation
  }

  function NextControl(s: State, pick: bool): State {
    s.(control := NextHolder(s, pick),
       gate := s.gate.(active := ActiveAfter(s),
                       generation := GenerationAfter(s),
                       callbackSet := s.gate.callbackSet || NextHolder(s, pick).StartActivate?),
       slots := s.slots.(idleGiven := s.slots.idleGiven && !s.control.StartDrain? && !s.control.StopDrain?),
       main := if s.control.StopDrain? && s.control.forShutdown then Stopped else s.main)
  }

  // ---------- The main task: on_shutdown, loop and finish_shutdown_ ----------

  /** Where the main task goes; a failed idle check is repeated from `loop`. */
  function NextMainPlace(s: State): Main {
    match s.main
    case Up => Pending
    case Pending => NotReady
    case NotReady => if s.control.NotHeld? then Stopping else NotReady
    case Stopping => Stopping
    case Stopped => if s.control.NotHeld? then AwaitWorker else Stopped
    case AwaitWorker => if s.worker.Gone? then FinalScan(0) else AwaitWorker
    case FinalScan(k) => if !ReadsFree(s, k) then FinalScan(0) else if k >= 4 then FinalMutex else FinalScan(k + 1)
    case FinalMutex => if s.control.NotHeld? then Freeing else FinalMutex
    case Freeing => Down
    case Down => Down
  }

  function MutexAfterMain(s: State): Control {
    if s.main.NotReady? && s.control.NotHeld? then StopGate(true)
    else if s.main.FinalMutex? && s.control.NotHeld? then ByMain
    else if s.main.Freeing? then NotHeld
    else s.control
  }

  function NextMain(s: State): State {
    s.(main := NextMainPlace(s),
       control := MutexAfterMain(s),
       gate := Gate(s.gate.active,
                    s.gate.generation,
                    s.gate.running && !(s.main.Stopped? && s.control.NotHeld?),
                    s.gate.callbackSet && !s.main.Freeing?,
                    s.main.Up? || (s.gate.shutdownPending && !s.main.Freeing?),
                    s.gate.encoderReady && !s.main.Pending?,
                    s.gate.freed || s.main.Freeing?),
       slots := if s.main.Freeing? then Emptied(s.slots) else s.slots)
  }

  /** `free_resources_`: every slot back to state 0. */
  function Emptied(slots: Slots): Slots {
    slots.(tx := TxSlots(slots.tx.first.(state := 0), slots.tx.second.(state := 0)), encoded := EncodedSlots(0, 0))
  }

  // ---------- The machine ----------

  /** One step; a label that is not enabled changes nothing. */
  function Step(s: State, l: Label): State {
    match l
    case Arrive(c) =>
      if c in s.callbacks then s
      else s.(slots := s.slots.(inFlight := s.slots.inFlight + 1), callbacks := s.callbacks[c := Counted])
    case CallbackStep(c, pick) => if c in s.callbacks then NextCallback(s, c, pick) else s
    case WorkerStep(pick) => NextWorker(s, pick)
    case GiveBack(e, r) =>
      if e in s.lent && r !in s.releases then
        SetEncoded(s, e, 0).(lent := s.lent - {e}, releases := s.releases[r := LoadActive])
      else s
    case ReleaseStep(r) =>
      if r in s.releases then
        var t := s.releases[r];
        s.(releases := if NextTail(s, t).Some? then s.releases[r := NextTail(s, t).value] else s.releases - {r},
           slots := s.slots.(idleGiven := s.slots.idleGiven || t.GiveIdle?))
      else s
    case TakeMutexToStart => if s.control.NotHeld? then s.(control := StartPending) else s
    case TakeMutexToStop => if s.control.NotHeld? then s.(control := StopGate(false)) else s
    case ControlStep(pick) => NextControl(s, pick)
    case ClearCallback => if s.control.NotHeld? then s.(gate := s.gate.(callbackSet := false)) else s
    case TakeIdle => s.(slots := s.slots.(idleGiven := false))
    case MainStep => NextMain(s)
  }

  /** The state after a run. */
  function Run(s: State, ls: seq<Label>): State
    decreases |ls|
  {
    if ls == [] then s else Run(Step(s, ls[0]), ls[1..])
  }
}
