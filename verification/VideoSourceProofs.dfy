/**
 Ownership and idleness in the H.264 camera source: who owns which buffer in every reachable state, what a
 passed idle check means, that shutdown never frees a buffer in use, and when a stop is woken up.
 */
module VideoSourceProofs {
  import opened Machine
  import opened VideoSource

  // ---------- Who owns what ----------

  /** The TX slot a callback owns: it is writing the slot or about to publish or release it. */
  function CallbackTx(pc: Callback): Option<Two> {
    if pc.Owns? || pc.Recheck? || pc.RecheckGeneration? || pc.Publish? || pc.Release? then Some(pc.index) else None
  }

  /** The callback was admitted and has not given up its claim to a TX slot. */
  predicate Engaged(pc: Callback) {
    pc.Admitted? || pc.Claim? || CallbackTx(pc).Some?
  }

  /** The TX slot the worker owns: it is reading the slot or about to release it. */
  function WorkerTx(w: Worker): Option<Two> {
    if w.Holding? || w.HoldingGeneration? || w.GrabEncoded? || w.ReleaseTx? || WorkerEncoded(w).Some?
    then Some(w.index) else None
  }

  /** The encoded slot the worker owns: it is filling the slot, or about to lend or free it. */
  function WorkerEncoded(w: Worker): (e: Option<Two>)
    ensures e.Some? ==> (w.Encoding? || w.AwaitMutex? || w.CheckActive? || w.CheckGeneration? || w.HandOver?
                         || w.Unlock? || w.DropEncoded?)
  {
    if w.Encoding? || w.AwaitMutex? || w.CheckActive? || w.CheckGeneration? || w.HandOver? || w.Unlock?
       || w.DropEncoded?
    then Some(w.encoded) else None
  }

  predicate WorkerCritical(w: Worker) {
    w.CheckActive? || w.CheckGeneration? || w.HandOver? || w.Unlock?
  }

  function InFlight(s: State): set<nat> {
    set c | c in s.callbacks && !s.callbacks[c].LastTail?
  }

  // ---------- The invariant ----------

  /** State 1 of TX slot `i` is one callback's, and no callback owns it otherwise. */
  ghost predicate OneCallback(s: State, i: Two) {
    && (forall c :: c in s.callbacks && CallbackTx(s.callbacks[c]) == Some(i) ==> s.slots.tx.At(i).state == 1)
    && (forall c, d :: c in s.callbacks && d in s.callbacks
          && CallbackTx(s.callbacks[c]) == Some(i) && CallbackTx(s.callbacks[d]) == Some(i)
          ==> c == d)
  }

  /** State 3 is the worker's. */
  predicate OneWorker(s: State, i: Two) {
    s.slots.tx.At(i).state == 3 <==> WorkerTx(s.worker) == Some(i)
  }

  /** An encoded slot in use is the worker's or a consumer's, not both. */
  predicate OneEncodedOwner(s: State, e: Two) {
    && (s.slots.encoded.At(e) != 0 <==> WorkerEncoded(s.worker) == Some(e) || e in s.lent)
    && !(WorkerEncoded(s.worker) == Some(e) && e in s.lent)
  }

  ghost predicate SlotsInv(s: State) {
    && s.slots.inFlight == |InFlight(s)|
    && OneCallback(s, First) && OneCallback(s, Second)
    && OneWorker(s, First) && OneWorker(s, Second)
    && OneEncodedOwner(s, First) && OneEncodedOwner(s, Second)
  }

  ghost predicate MutexInv(s: State) {
    && (s.control.ByWorker? <==> WorkerCritical(s.worker))
    && (s.worker.CheckGeneration? ==> s.gate.active)
    && (s.worker.HandOver? ==>
          s.gate.active && s.gate.callbackSet && s.slots.tx.At(s.worker.index).generation == s.gate.generation)
  }

  /** The start half of the control protocol, past its readiness check. */
  predicate Starting(c: Control) {
    c.StartActivate? || c.StartCamera? || c.StartUndo? || c.StartBump? || c.StartDrain?
  }

  predicate ShutdownStop(c: Control) {
    (c.StopGate? || c.StopBump? || c.StopDrain?) && c.forShutdown
  }

  /** How far `tx_slots_idle_` has come, in the main task's last check. */
  function FinalReads(m: Main): nat {
    match m
    case FinalScan(k) => k
    case FinalMutex => 5
    case Freeing => 5
    case Down => 5
    case _ => 0
  }

  ghost predicate ShutdownInv(s: State) {
    && (s.main.Stopping? <==> ShutdownStop(s.control))
    && (s.main.Freeing? <==> s.control.ByMain?)
    && (!s.main.Up? && !s.main.Down? ==> s.gate.shutdownPending)
    && (!s.main.Up? && !s.main.Pending? ==> !s.gate.encoderReady)
    && (!s.main.Up? && !s.main.Pending? && !s.main.NotReady? ==> !Starting(s.control))
    && (s.main.Stopping? && !s.control.StopGate? ==> !s.gate.active)
    && (s.main.Stopped? || s.main.AwaitWorker? ==> !s.gate.active)
    && (s.main.FinalScan? || s.main.FinalMutex? || s.main.Freeing? || s.main.Down? ==>
          s.worker.Gone? && FinalReads(s.main) <= 5 && Quiet(s, FinalReads(s.main)))
    && (s.gate.freed <==> s.main.Down?)
  }

  /**
   What `k` passed reads of the idle check guarantee as long as `tx_active_` stays false: after the callback count
   no callback can come to own a slot any more, after each slot that slot stays free.
   */
  ghost predicate Quiet(s: State, k: nat) {
    && !s.gate.active
    && (k >= 1 ==> forall c :: c in s.callbacks ==> !Engaged(s.callbacks[c]))
    && (k >= 2 ==> s.slots.tx.first.state == 0)
    && (k >= 3 ==> s.slots.tx.second.state == 0)
    && (k >= 4 ==> s.slots.encoded.first == 0)
    && (k >= 5 ==> s.slots.encoded.second == 0)
  }

  ghost predicate Inv(s: State) {
    SlotsInv(s) && MutexInv(s) && ShutdownInv(s)
  }

  /** No callback, worker or consumer owns a buffer or can come to own one. */
  ghost predicate NoOwner(s: State) {
    && (forall c :: c in s.callbacks ==> !Engaged(s.callbacks[c]))
    && s.slots.tx.first.state == 0 && s.slots.tx.second.state == 0
    && s.slots.encoded.first == 0 && s.slots.encoded.second == 0
    && WorkerTx(s.worker).None? && WorkerEncoded(s.worker).None?
    && s.lent == {}
  }

  lemma QuietMeansNoOwner(s: State)
    requires SlotsInv(s) && Quiet(s, 5)
    ensures NoOwner(s)
  {
    forall e ensures e !in s.lent && WorkerTx(s.worker) != Some(e) && WorkerEncoded(s.worker) != Some(e) {
      WorkerSlots(s, e);
    }
    NoneOfTwo(WorkerTx(s.worker));
    NoneOfTwo(WorkerEncoded(s.worker));
  }

  lemma NoneOfTwo(o: Option<Two>)
    ensures (forall e :: o != Some(e)) ==> o.None?
  {
    match o {
      case None =>
      case Some(e) => assert o == Some(e);
    }
  }

  /** A passed read adds its guarantee. */
  lemma PassedRead(s: State, k: nat)
    requires SlotsInv(s) && Quiet(s, k) && ReadsFree(s, k) && k <= 4
    ensures Quiet(s, k + 1)
  {
    if k == 0 {
      assert forall c :: c in s.callbacks && !s.callbacks[c].LastTail? ==> c in InFlight(s);
    }
  }

  // ---------- One step at a time: callbacks ----------

  /** `s'` differs from `s` in nothing `SlotsInv` looks at, but for the callbacks and the TX slots. */
  predicate SameOwners(s: State, s': State) {
    s'.slots.encoded == s.slots.encoded && s'.worker == s.worker && s'.lent == s.lent
  }

  /** A callback moves on without acquiring a slot. */
  lemma CallbackMoves(s: State, s': State, c: nat, pc: Callback)
    requires SlotsInv(s) && SameOwners(s, s') && s'.slots.tx == s.slots.tx && s'.slots.inFlight == s.slots.inFlight
    requires c in s.callbacks && s'.callbacks == s.callbacks[c := pc]
    requires s.callbacks[c].LastTail? == pc.LastTail?
    requires CallbackTx(pc).Some? ==> CallbackTx(pc) == CallbackTx(s.callbacks[c])
    ensures SlotsInv(s')
  {
    assert InFlight(s') == InFlight(s);
  }

  lemma CallbackClaims(s: State, c: nat, i: Two, g: u32)
    requires SlotsInv(s) && c in s.callbacks && s.callbacks[c] == Claim(i, g) && s.slots.tx.At(i).state == 0
    ensures SlotsInv(SetTx(s, i, 1).(callbacks := s.callbacks[c := Owns(i, g)]))
  {
    var s' := SetTx(s, i, 1).(callbacks := s.callbacks[c := Owns(i, g)]);
    assert InFlight(s') == InFlight(s);
  }

  /** A callback hands its slot on, with state `value`: queued or free. */
  lemma CallbackGivesUp(s: State, s': State, c: nat, i: Two, pc: Callback)
    requires SlotsInv(s) && SameOwners(s, s') && s'.slots.inFlight == s.slots.inFlight
    requires c in s.callbacks && CallbackTx(s.callbacks[c]) == Some(i) && s'.callbacks == s.callbacks[c := pc]
    requires !pc.LastTail? && CallbackTx(pc).None?
    requires s'.slots.tx.At(i).state == 0 || s'.slots.tx.At(i).state == 2
    requires i.First? ==> s'.slots.tx.second == s.slots.tx.second
    requires i.Second? ==> s'.slots.tx.first == s.slots.tx.first
    ensures SlotsInv(s')
  {
    assert InFlight(s') == InFlight(s);
  }

  lemma CallbackEnds(s: State, s': State, c: nat)
    requires SlotsInv(s) && SameOwners(s, s') && s'.slots.tx == s.slots.tx && c in s.callbacks
    requires s'.callbacks == s.callbacks - {c}
    requires s'.slots.inFlight == s.slots.inFlight - if s.callbacks[c].LastTail? then 0 else 1
    ensures SlotsInv(s')
  {
    if s.callbacks[c].LastTail? {
      assert InFlight(s') == InFlight(s);
    } else {
      assert c in InFlight(s) && InFlight(s') == InFlight(s) - {c};
    }
  }

  lemma CallbackCountsDown(s: State, s': State, c: nat)
    requires SlotsInv(s) && SameOwners(s, s') && s'.slots.tx == s.slots.tx && c in s.callbacks && s.callbacks[c].Leave?
    requires s'.callbacks == s.callbacks[c := LastTail(LoadActive)] && s'.slots.inFlight == s.slots.inFlight - 1
    ensures SlotsInv(s')
  {
    assert c in InFlight(s) && InFlight(s') == InFlight(s) - {c};
  }

  lemma CallbackKeepsSlots(s: State, c: nat, pick: bool)
    requires SlotsInv(s) && c in s.callbacks
    ensures SlotsInv(NextCallback(s, c, pick))
  {
    hide SlotsInv;
    var s', pc := NextCallback(s, c, pick), s.callbacks[c];
    match pc {
      case Claim(i, g) =>
        if s.slots.tx.At(i).state == 0 {
          CallbackClaims(s, c, i, g);
        } else {
          CallbackMoves(s, s', c, s'.callbacks[c]);
        }
      case Publish(i, g) => CallbackGivesUp(s, s', c, i, Leave);
      case Release(i) => CallbackGivesUp(s, s', c, i, ReleaseTail(LoadActive));
      case Leave =>
        InFlightPositive(s, c);
        if s.slots.inFlight == 1 {
          CallbackCountsDown(s, s', c);
        } else {
          CallbackEnds(s, s', c);
        }
      case LastTail(t) =>
        if NextTail(s, t).Some? {
          CallbackMoves(s, s', c, s'.callbacks[c]);
        } else {
          CallbackEnds(s, s', c);
        }
      case _ => CallbackMoves(s, s', c, s'.callbacks[c]);
    }
  }

  lemma InFlightPositive(s: State, c: nat)
    requires SlotsInv(s) && c in s.callbacks && !s.callbacks[c].LastTail?
    ensures s.slots.inFlight > 0
  {
    assert c in InFlight(s);
  }

  // ---------- One step at a time: the worker, the consumers, the controllers, the main task ----------

  lemma SameCallbacks(s: State, s': State, i: Two)
    requires OneCallback(s, i) && s'.callbacks == s.callbacks
    requires s.slots.tx.At(i).state == 1 <==> s'.slots.tx.At(i).state == 1
    ensures OneCallback(s', i)
  {
  }

  /** The worker moves on: same slots, or one TX slot taken from the queue, freed or discarded. */
  lemma WorkerMoves(s: State, s': State, i: Two, value: nat)
    requires SlotsInv(s) && s'.callbacks == s.callbacks && s'.slots.inFlight == s.slots.inFlight
    requires s'.slots.encoded == s.slots.encoded && s'.lent == s.lent
    requires s'.slots.tx == s.slots.tx.Put(i, s.slots.tx.At(i).(state := value))
    requires s.slots.tx.At(i).state == 1 <==> value == 1
    requires value == 3 <==> WorkerTx(s'.worker) == Some(i)
    requires WorkerTx(s'.worker) == WorkerTx(s.worker)
          || (WorkerTx(s'.worker) == Some(i) && WorkerTx(s.worker).None?)
          || (WorkerTx(s'.worker).None? && WorkerTx(s.worker) == Some(i))
    requires WorkerEncoded(s'.worker) == WorkerEncoded(s.worker)
    ensures SlotsInv(s')
  {
    assert InFlight(s') == InFlight(s);
    SameCallbacks(s, s', First);
    SameCallbacks(s, s', Second);
  }

  /** The worker takes, frees or lends an encoded slot. */
  lemma WorkerEncodes(s: State, s': State, e: Two, value: nat)
    requires SlotsInv(s) && s'.callbacks == s.callbacks && s'.slots.inFlight == s.slots.inFlight && s'.slots.tx == s.slots.tx
    requires WorkerTx(s'.worker) == WorkerTx(s.worker)
    requires s'.slots.encoded == s.slots.encoded.Put(e, value)
    requires s'.lent == s.lent || s'.lent == s.lent + {e}
    requires OneEncodedOwner(s', e)
    requires WorkerEncoded(s.worker) == Some(e) || WorkerEncoded(s.worker).None?
    requires WorkerEncoded(s'.worker) == Some(e) || WorkerEncoded(s'.worker).None?
    ensures SlotsInv(s')
  {
    assert InFlight(s') == InFlight(s);
    SameCallbacks(s, s', First);
    SameCallbacks(s, s', Second);
  }

  /** Which steps of the worker change what it owns. */
  lemma WorkerOwnership(s: State, pick: bool)
    ensures var w, w' := s.worker, NextPlace(s, pick);
            && (!w.TryClaim? && !w.ReleaseTx? ==> WorkerTx(w') == WorkerTx(w))
            && (!w.GrabEncoded? && !w.HandOver? && !w.DropEncoded? ==> WorkerEncoded(w') == WorkerEncoded(w))
  {
  }

  predicate ChangesSlots(w: Worker) {
    w.TryClaim? || w.ReleaseTx? || w.Discard? || w.GrabEncoded? || w.HandOver? || w.DropEncoded?
  }

  lemma WorkerLooks(s: State, pick: bool)
    requires SlotsInv(s) && !ChangesSlots(s.worker)
    ensures SlotsInv(NextWorker(s, pick))
  {
    WorkerOwnership(s, pick);
    WorkerSlots(s, First);
    hide SlotsInv, NextPlace;
    WorkerMoves(s, NextWorker(s, pick), First, s.slots.tx.first.state);
  }

  lemma WorkerKeepsSlots(s: State, pick: bool)
    requires SlotsInv(s)
    ensures SlotsInv(NextWorker(s, pick))
  {
    if !ChangesSlots(s.worker) {
      WorkerLooks(s, pick);
      return;
    }
    if s.worker.TryClaim? || s.worker.ReleaseTx? || s.worker.Discard? {
      WorkerMovesTx(s, pick);
    } else {
      WorkerMovesEncoded(s, pick);
    }
  }

  lemma WorkerMovesTx(s: State, pick: bool)
    requires SlotsInv(s) && (s.worker.TryClaim? || s.worker.ReleaseTx? || s.worker.Discard?)
    ensures SlotsInv(NextWorker(s, pick))
  {
    var s', i := NextWorker(s, pick), s.worker.index;
    WorkerSlots(s, i);
    var value := if s.worker.ReleaseTx? then 0 else if s.slots.tx.At(i).state != 2 then s.slots.tx.At(i).state
                 else if s.worker.TryClaim? then 3 else 0;
    hide SlotsInv, NextTail, LentAfter, MutexAfter;
    assert s'.slots.encoded == s.slots.encoded && s'.slots.tx == s.slots.tx.Put(i, s.slots.tx.At(i).(state := value));
    assert s'.lent == s.lent by {
      LentOnlyByHandOver(s);
    }
    WorkerMoves(s, s', i, value);
  }

  lemma LentOnlyByHandOver(s: State)
    requires !s.worker.HandOver?
    ensures LentAfter(s) == s.lent
  {
  }

  lemma WorkerMovesEncoded(s: State, pick: bool)
    requires SlotsInv(s) && (s.worker.GrabEncoded? || s.worker.HandOver? || s.worker.DropEncoded?)
    ensures SlotsInv(NextWorker(s, pick))
  {
    var s', e := NextWorker(s, pick), s.worker.encoded;
    WorkerSlots(s, e);
    WorkerSlots(s, First);
    hide SlotsInv;
    assert s'.slots.tx == s.slots.tx;
    if s.worker.GrabEncoded? && s.slots.encoded.At(e) != 0 {
      WorkerMoves(s, s', First, s.slots.tx.first.state);
    } else {
      assert OneEncodedOwner(s', e);
      WorkerEncodes(s, s', e, s'.slots.encoded.At(e));
    }
  }

  lemma WorkerSlots(s: State, i: Two)
    requires SlotsInv(s)
    ensures OneWorker(s, i) && OneEncodedOwner(s, i)
  {
    match i {
      case First =>
      case Second =>
    }
  }

  lemma GiveBackKeepsSlots(s: State, e: Two, r: nat)
    requires SlotsInv(s)
    ensures SlotsInv(Step(s, GiveBack(e, r)))
  {
    assert InFlight(Step(s, GiveBack(e, r))) == InFlight(s);
  }

  lemma MainKeepsSlots(s: State)
    requires SlotsInv(s) && ShutdownInv(s)
    ensures SlotsInv(NextMain(s))
  {
    assert InFlight(NextMain(s)) == InFlight(s);
    if s.main.Freeing? {
      QuietMeansNoOwner(s);
    }
  }

  lemma ArrivalKeepsSlots(s: State, c: nat)
    requires SlotsInv(s)
    ensures SlotsInv(Step(s, Arrive(c)))
  {
    if c !in s.callbacks {
      assert InFlight(Step(s, Arrive(c))) == InFlight(s) + {c};
    }
  }

  lemma StepKeepsSlots(s: State, l: Label)
    requires SlotsInv(s) && ShutdownInv(s)
    ensures SlotsInv(Step(s, l))
  {
    hide NextCallback, NextWorker, NextControl, NextMain, NextTail, SlotsInv, ShutdownInv;
    match l {
      case Arrive(c) =>
        ArrivalKeepsSlots(s, c);
      case CallbackStep(c, pick) =>
        if c in s.callbacks {
          CallbackKeepsSlots(s, c, pick);
        }
      case WorkerStep(pick) => WorkerKeepsSlots(s, pick);
      case GiveBack(e, r) => GiveBackKeepsSlots(s, e, r);
      case MainStep => MainKeepsSlots(s);
      case _ => OthersKeepSlots(s, l);
    }
  }

  lemma OthersKeepSlots(s: State, l: Label)
    requires SlotsInv(s) && !l.Arrive? && !l.CallbackStep? && !l.WorkerStep? && !l.GiveBack? && !l.MainStep?
    ensures SlotsInv(Step(s, l))
  {
    hide NextHolder, NextTail, ActiveAfter, GenerationAfter;
    assert InFlight(Step(s, l)) == InFlight(s);
  }

  // ---------- The mutex ----------

  lemma CallbackKeepsMutex(s: State, c: nat, pick: bool)
    requires Inv(s) && c in s.callbacks
    ensures MutexInv(NextCallback(s, c, pick))
  {
    hide NextCallbackPlace, ShutdownInv;
    if s.worker.HandOver? {
      WorkerSlots(s, s.worker.index);
    }
  }

  lemma WorkerKeepsMutex(s: State, pick: bool)
    requires Inv(s)
    ensures MutexInv(NextWorker(s, pick))
  {
    hide SlotsInv, ShutdownInv, NextTail;
  }

  lemma ControlKeepsMutex(s: State, pick: bool)
    requires Inv(s)
    ensures MutexInv(NextControl(s, pick))
  {
    hide SlotsInv, ShutdownInv;
  }

  lemma MainKeepsMutex(s: State)
    requires Inv(s)
    ensures MutexInv(NextMain(s))
  {
    hide SlotsInv;
  }

  lemma StepKeepsMutex(s: State, l: Label)
    requires Inv(s)
    ensures MutexInv(Step(s, l))
  {
    hide NextCallback, NextWorker, NextControl, NextMain, SlotsInv, ShutdownInv, NextTail;
    match l {
      case CallbackStep(c, pick) =>
        if c in s.callbacks {
          CallbackKeepsMutex(s, c, pick);
        }
      case WorkerStep(pick) => WorkerKeepsMutex(s, pick);
      case ControlStep(pick) => ControlKeepsMutex(s, pick);
      case MainStep => MainKeepsMutex(s);
      case _ =>
    }
  }

  // ---------- The shut gate ----------

  lemma CallbackKeepsQuiet(s: State, c: nat, pick: bool, k: nat)
    requires SlotsInv(s) && Quiet(s, k) && c in s.callbacks
    ensures Quiet(NextCallback(s, c, pick), k)
  {
    hide SlotsInv;
  }

  lemma WorkerKeepsQuiet(s: State, pick: bool, k: nat)
    requires SlotsInv(s) && Quiet(s, k)
    ensures Quiet(NextWorker(s, pick), k)
  {
    hide NextPlace, SlotsInv;
    if WorkerTx(s.worker).Some? {
      WorkerSlots(s, WorkerTx(s.worker).value);
    }
    assert k >= 3 ==> WorkerTx(s.worker).None?;
  }

  lemma MainKeepsQuiet(s: State, k: nat)
    requires Quiet(s, k)
    ensures Quiet(NextMain(s), k)
  {
    hide NextMainPlace, MutexAfterMain;
  }

  /** While the gate is shut, what the passed reads guarantee stays true. */
  lemma QuietStays(s: State, l: Label, k: nat)
    requires SlotsInv(s) && Quiet(s, k) && !Step(s, l).gate.active
    ensures Quiet(Step(s, l), k)
  {
    hide NextCallback, NextWorker, NextMain, NextHolder, NextTail, SlotsInv;
    match l {
      case CallbackStep(c, pick) =>
        if c in s.callbacks {
          CallbackKeepsQuiet(s, c, pick, k);
        }
      case WorkerStep(pick) => WorkerKeepsQuiet(s, pick, k);
      case MainStep => MainKeepsQuiet(s, k);
      case _ =>
    }
  }

  // ---------- Shutdown ----------

  /** The steps that are not the main task's or the mutex holder's leave shutdown alone. */
  lemma OthersKeepShutdown(s: State, s': State)
    requires ShutdownInv(s) && LeavesShutdownAlone(s, s')
    requires forall k :: Quiet(s, k) ==> Quiet(s', k)
    ensures ShutdownInv(s')
  {
  }

  lemma ControlKeepsShutdown(s: State, pick: bool)
    requires Inv(s)
    ensures ShutdownInv(NextControl(s, pick))
  {
    hide SlotsInv, MutexInv;
    if !NextControl(s, pick).gate.active {
      hide Quiet;
      assert Step(s, ControlStep(pick)) == NextControl(s, pick);
      if s.main.FinalScan? || s.main.FinalMutex? || s.main.Freeing? || s.main.Down? {
        QuietStays(s, ControlStep(pick), FinalReads(s.main));
      }
    }
  }

  lemma MainKeepsShutdown(s: State)
    requires Inv(s)
    ensures ShutdownInv(NextMain(s))
  {
    hide MutexInv, SlotsInv;
    if s.main.FinalScan? || s.main.FinalMutex? || s.main.Freeing? || s.main.Down? {
      MainKeepsQuiet(s, FinalReads(s.main));
    }
    if s.main.FinalScan? && ReadsFree(s, s.main.passed) && s.main.passed <= 4 {
      PassedRead(s, s.main.passed);
    }
  }

  /** A step outside the control protocol's and the main task's own hands. */
  predicate LeavesShutdownAlone(s: State, s': State) {
    && s'.gate == s.gate.(callbackSet := s'.gate.callbackSet)
    && s'.main == s.main
    && (s'.control == s.control || !(ShutdownStop(s.control) || s.control.ByMain? || ShutdownStop(s'.control)
                                     || s'.control.ByMain? || Starting(s'.control)))
    && (s.worker.Gone? ==> s'.worker.Gone?)
  }

  lemma WorkerFrame(s: State, pick: bool)
    requires MutexInv(s)
    ensures LeavesShutdownAlone(s, NextWorker(s, pick))
  {
    hide TxAfter, EncodedAfter, LentAfter;
    assert s.worker.Gone? ==> NextPlace(s, pick).Gone?;
    hide NextPlace;
  }

  lemma OthersFrame(s: State, l: Label)
    requires MutexInv(s) && !l.ControlStep? && !l.MainStep?
    ensures LeavesShutdownAlone(s, Step(s, l))
  {
    hide NextCallback, NextTail, NextWorker, NextControl, NextMain, MutexInv;
    match l {
      case CallbackStep(c, pick) =>
        if c in s.callbacks {
          CallbackFrame(s, c, pick);
        }
      case WorkerStep(pick) => WorkerFrame(s, pick);
      case _ =>
    }
  }

  lemma CallbackFrame(s: State, c: nat, pick: bool)
    requires c in s.callbacks
    ensures LeavesShutdownAlone(s, NextCallback(s, c, pick))
  {
    hide NextCallbackPlace, TxAfterCallback;
  }

  lemma StepKeepsShutdown(s: State, l: Label)
    requires Inv(s)
    ensures ShutdownInv(Step(s, l))
  {
    var s' := Step(s, l);
    if l.ControlStep? {
      ControlKeepsShutdown(s, l.pick);
    } else if l.MainStep? {
      MainKeepsShutdown(s);
    } else {
      OthersFrame(s, l);
      hide Step, Quiet, SlotsInv, ShutdownInv, MutexInv;
      forall k | Quiet(s, k) ensures Quiet(s', k) {
        QuietStays(s, l, k);
      }
      OthersKeepShutdown(s, s');
    }
  }
}
