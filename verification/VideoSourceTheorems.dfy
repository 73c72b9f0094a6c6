/**
 What the H.264 camera source promises over whole runs: exclusive buffers, a sound idle check, a shutdown that
 frees nothing in use, and exactly which steps can cost a stopping caller its wake-up.
 */
module VideoSourceTheorems {
  import opened Machine
  import opened VideoSource
  import opened VideoSourceProofs

  lemma StepKeepsInv(s: State, l: Label)
    requires Inv(s)
    ensures Inv(Step(s, l))
  {
    hide Step, SlotsInv, MutexInv, ShutdownInv;
    StepKeepsSlots(s, l);
    StepKeepsMutex(s, l);
    StepKeepsShutdown(s, l);
  }

  lemma InitialInv()
    ensures Inv(INITIAL)
  {
    assert InFlight(INITIAL) == {};
  }

  lemma {:induction false} RunKeepsInv(s: State, ls: seq<Label>)
    requires Inv(s)
    ensures Inv(Run(s, ls))
    decreases |ls|
  {
    hide Step, Inv;
    if ls != [] {
      StepKeepsInv(s, ls[0]);
      RunKeepsInv(Step(s, ls[0]), ls[1..]);
    }
  }

  // ---------- Exclusive buffers and current publications ----------

  /** In every reachable state each buffer has at most one owner. */
  lemma BuffersAreExclusive(ls: seq<Label>, c: nat, d: nat, i: Two)
    ensures var s := Run(INITIAL, ls);
            && (c in s.callbacks && CallbackTx(s.callbacks[c]) == Some(i) ==>
                  WorkerTx(s.worker) != Some(i)
                  && (d in s.callbacks && CallbackTx(s.callbacks[d]) == Some(i) ==> c == d))
            && !(WorkerEncoded(s.worker) == Some(i) && i in s.lent)
  {
    InitialInv();
    RunKeepsInv(INITIAL, ls);
    WorkerSlots(Run(INITIAL, ls), i);
    hide Run;
    match i {
      case First =>
      case Second =>
    }
  }

  /**
   The worker lends an encoded frame only while it holds the control mutex, with the gate open, a callback set and
   the frame's generation current: no frame is handed over after a stop or to a later call.
   */
  lemma PublishesOnlyCurrentFrames(ls: seq<Label>)
    ensures var s := Run(INITIAL, ls);
            s.worker.HandOver? ==>
              s.control.ByWorker? && s.gate.active && s.gate.callbackSet && s.slots.tx.At(s.worker.index).generation == s.gate.generation
  {
    InitialInv();
    RunKeepsInv(INITIAL, ls);
  }

  // ---------- The idle check ----------

  /** `tx_active_` is false before and after every step of the run. */
  predicate GateShut(s: State, ls: seq<Label>)
    decreases |ls|
  {
    !s.gate.active && (ls == [] || GateShut(Step(s, ls[0]), ls[1..]))
  }

  lemma {:induction false} QuietStaysInRun(s: State, ls: seq<Label>, k: nat)
    requires Inv(s) && Quiet(s, k) && GateShut(s, ls)
    ensures Inv(Run(s, ls)) && Quiet(Run(s, ls), k) && !Run(s, ls).gate.active
    decreases |ls|
  {
    hide Step, SlotsInv, MutexInv, ShutdownInv;
    if ls != [] {
      StepKeepsInv(s, ls[0]);
      assert !Step(s, ls[0]).gate.active;
      QuietStays(s, ls[0], k);
      QuietStaysInRun(Step(s, ls[0]), ls[1..], k);
    }
  }

  lemma {:induction false} RunParts(s: State, ls: seq<Label>, n: nat)
    requires n <= |ls|
    ensures Run(s, ls) == Run(Run(s, ls[..n]), ls[n..])
    ensures GateShut(s, ls) ==> GateShut(s, ls[..n]) && GateShut(Run(s, ls[..n]), ls[n..])
    decreases n
  {
    hide Step;
    if n == 0 {
      assert ls[n..] == ls;
    } else {
      assert ls[..n][0] == ls[0] && ls[..n][1..] == ls[1..][..n - 1] && ls[1..][n - 1..] == ls[n..];
      RunParts(Step(s, ls[0]), ls[1..], n - 1);
    }
  }

  /** The reads of an idle check, the `k`-th after `at[k]` steps of the run, all found what they looked at free. */
  predicate CheckPasses(s: State, ls: seq<Label>, at: seq<nat>, k: nat) {
    && k <= |at|
    && (forall j :: 0 <= j < k ==> at[j] <= |ls| && ReadsFree(Run(s, ls[..at[j]]), j))
    && (forall i, j :: 0 <= i < j < k ==> at[i] <= at[j])
  }

  lemma {:induction false} PassedReads(s: State, ls: seq<Label>, at: seq<nat>, k: nat, n: nat)
    requires Inv(s) && GateShut(s, ls) && k <= 5 && CheckPasses(s, ls, at, k)
    requires n <= |ls| && (k > 0 ==> at[k - 1] <= n)
    ensures Inv(Run(s, ls[..n])) && Quiet(Run(s, ls[..n]), k)
    decreases k
  {
    hide Step, SlotsInv, MutexInv, ShutdownInv;
    RunParts(s, ls, n);
    if k == 0 {
      assert !s.gate.active;
      assert Quiet(s, 0);
      QuietStaysInRun(s, ls[..n], 0);
    } else {
      var m := at[k - 1];
      PassedReads(s, ls, at, k - 1, m);
      PassedRead(Run(s, ls[..m]), k - 1);
      assert ls[..n][..m] == ls[..m];
      RunParts(s, ls[..n], m);
      QuietStaysInRun(Run(s, ls[..m]), ls[..n][m..], k);
    }
  }

  /**
   The idle barrier. The check reads its five words one at a time while every other thread runs on. If the gate is
   shut throughout and every read finds its word free, then from the last read on, for as long as the gate stays
   shut, no callback, worker or consumer owns a buffer or can come to own one.
   */
  lemma IdleCheckIsSound(s: State, ls: seq<Label>, at: seq<nat>, n: nat)
    requires Inv(s) && GateShut(s, ls) && |at| == 5 && CheckPasses(s, ls, at, 5)
    requires at[4] <= n <= |ls|
    ensures NoOwner(Run(s, ls[..n]))
  {
    PassedReads(s, ls, at, 5, n);
    QuietMeansNoOwner(Run(s, ls[..n]));
  }

  // ---------- Shutdown ----------

  /** In every run, when shutdown frees the buffers, and ever after, nobody owns one and the worker is gone. */
  lemma NeverFreesABufferInUse(ls: seq<Label>)
    ensures var s := Run(INITIAL, ls);
            s.main.Freeing? || s.gate.freed ==> NoOwner(s) && s.worker.Gone? && !s.gate.active
  {
    InitialInv();
    RunKeepsInv(INITIAL, ls);
    var s := Run(INITIAL, ls);
    if s.main.Freeing? || s.gate.freed {
      QuietMeansNoOwner(s);
    }
  }

  // ---------- Waking up a stop ----------

  /** Everything the idle check looks at is free. */
  predicate Idle(s: State) {
    forall k: nat :: k < 5 ==> ReadsFree(s, k)
  }

  /** Some thread has released its last buffer and is still on its way through the idle check that follows. */
  predicate ChecksAfterRelease(s: State) {
    || s.releases != map[]
    || s.worker.IdleTail? || s.worker.TxTail?
    || exists c :: c in s.callbacks && s.callbacks[c].LastTail?
  }

  /**
   The steps after which a waiting stop can miss its wake-up: the gate opens again, somebody else takes the
   semaphore, or the exiting worker discards a queued frame.
   */
  predicate Disturbs(s: State, l: Label) {
    || Step(s, l).gate.active
    || (s.slots.idleGiven && !Step(s, l).slots.idleGiven)
    || (l.WorkerStep? && s.worker.Discard? && s.slots.tx.At(s.worker.index).state == 2)
  }

  predicate Undisturbed(s: State, ls: seq<Label>)
    decreases |ls|
  {
    ls == [] || (!Disturbs(s, ls[0]) && Undisturbed(Step(s, ls[0]), ls[1..]))
  }

  ghost predicate WakeUpComing(s: State) {
    s.slots.idleGiven || !Idle(s) || ChecksAfterRelease(s)
  }

  lemma IdleIs(s: State)
    ensures Idle(s) <==> s.slots.inFlight == 0 && s.slots.tx.first.state == 0 && s.slots.tx.second.state == 0
                         && s.slots.encoded.first == 0 && s.slots.encoded.second == 0
  {
    if Idle(s) {
      assert ReadsFree(s, 0) && ReadsFree(s, 1) && ReadsFree(s, 2) && ReadsFree(s, 3) && ReadsFree(s, 4);
    }
  }

  lemma CallbackWakesUp(s: State, c: nat, pick: bool)
    requires Inv(s) && !s.gate.active && WakeUpComing(s) && c in s.callbacks
    ensures WakeUpComing(NextCallback(s, c, pick))
  {
    var s', pc := NextCallback(s, c, pick), s.callbacks[c];
    IdleIs(s);
    IdleIs(s');
    if pc.LastTail? || (pc.Leave? && s.slots.inFlight == 1) {
      assert c in s'.callbacks ==> s'.callbacks[c].LastTail?;
      hide Inv;
      if c !in s'.callbacks && !s'.slots.idleGiven {
        assert NextTail(s, pc.tail).None?;
        assert !Idle(s);
      }
    } else {
      InFlightPositive(s, c);
    }
  }

  lemma WorkerWakesUp(s: State, pick: bool)
    requires Inv(s) && !s.gate.active && WakeUpComing(s) && !Disturbs(s, WorkerStep(pick))
    ensures WakeUpComing(NextWorker(s, pick))
  {
    var s', w := NextWorker(s, pick), s.worker;
    IdleIs(s);
    IdleIs(s');
    if WorkerTx(w).Some? {
      WorkerSlots(s, WorkerTx(w).value);
    }
  }

  lemma ReleaseWakesUp(s: State, r: nat)
    requires !s.gate.active && WakeUpComing(s)
    ensures WakeUpComing(Step(s, ReleaseStep(r)))
  {
    IdleIs(s);
    IdleIs(Step(s, ReleaseStep(r)));
    if r in s.releases {
      assert s.releases != map[];
      if Idle(s) && !s.releases[r].GiveIdle? {
        assert r in Step(s, ReleaseStep(r)).releases;
      }
    }
  }

  lemma OthersWakeUp(s: State, l: Label)
    requires Inv(s) && WakeUpComing(s) && !Disturbs(s, l)
    requires !l.CallbackStep? && !l.WorkerStep? && !l.ReleaseStep?
    ensures WakeUpComing(Step(s, l))
  {
    var s' := Step(s, l);
    IdleIs(s);
    IdleIs(s');
    if s.main.Freeing? {
      QuietMeansNoOwner(s);
    }
    match l {
      case Arrive(c) =>
        hide Inv;
        assert ChecksAfterRelease(s) ==> c in s.callbacks || s'.slots.inFlight > 0;
      case GiveBack(e, r) => assert s' != s ==> r in s'.releases;
      case ControlStep(pick) => hide Inv, NextHolder;
      case MainStep => hide SlotsInv, MutexInv, NextMainPlace;
      case _ =>
    }
  }

  lemma StepWakesUp(s: State, l: Label)
    requires Inv(s) && !s.gate.active && WakeUpComing(s) && !Disturbs(s, l)
    ensures WakeUpComing(Step(s, l))
  {
    hide Inv, WakeUpComing, NextCallback, NextWorker;
    match l {
      case CallbackStep(c, pick) =>
        if c in s.callbacks {
          CallbackWakesUp(s, c, pick);
        }
      case WorkerStep(pick) => WorkerWakesUp(s, pick);
      case ReleaseStep(r) => ReleaseWakesUp(s, r);
      case _ => OthersWakeUp(s, l);
    }
  }

  lemma {:induction false} RunWakesUp(s: State, ls: seq<Label>)
    requires Inv(s) && !s.gate.active && WakeUpComing(s) && Undisturbed(s, ls)
    ensures Inv(Run(s, ls)) && WakeUpComing(Run(s, ls))
    decreases |ls|
  {
    hide Step, Inv, WakeUpComing;
    if ls != [] {
      StepKeepsInv(s, ls[0]);
      StepWakesUp(s, ls[0]);
      RunWakesUp(Step(s, ls[0]), ls[1..]);
    }
  }

  /**
   No lost wake-up: from a state with the gate shut in which a stop's own check would find something in use, every
   run without a disturbing step that ends with everything free and nobody left on the way through an idle check
   ends with the semaphore given.
   */
  lemma StopIsWokenUp(s: State, ls: seq<Label>)
    requires Inv(s) && !s.gate.active && !Idle(s) && Undisturbed(s, ls)
    ensures Idle(Run(s, ls)) && !ChecksAfterRelease(Run(s, ls)) ==> Run(s, ls).slots.idleGiven
  {
    RunWakesUp(s, ls);
  }

  // ---------- What a given semaphore means ----------

  /** The reads a thread has passed since it found the gate shut still hold. */
  ghost predicate TailHolds(s: State, t: Tail) {
    match t
    case LoadActive => true
    case Scan(k) => k <= 4 && Quiet(s, k)
    case GiveIdle => Quiet(s, 5)
  }

  ghost predicate TailsHold(s: State) {
    && (forall r :: r in s.releases ==> TailHolds(s, s.releases[r]))
    && (s.worker.IdleTail? || s.worker.TxTail? ==> TailHolds(s, s.worker.tail))
    && (forall c :: c in s.callbacks && (s.callbacks[c].ReleaseTail? || s.callbacks[c].LastTail?) ==>
          TailHolds(s, s.callbacks[c].tail))
    && (s.slots.idleGiven ==> Quiet(s, 5))
  }

  lemma TailStays(s: State, l: Label, t: Tail)
    requires SlotsInv(s) && TailHolds(s, t) && !Step(s, l).gate.active
    ensures TailHolds(Step(s, l), t)
  {
    hide Step, SlotsInv, Quiet;
    match t {
      case Scan(k) => if Quiet(s, k) { QuietStays(s, l, k); }
      case GiveIdle => QuietStays(s, l, 5);
      case LoadActive =>
    }
  }

  lemma TailAdvances(s: State, t: Tail)
    requires SlotsInv(s) && !s.gate.active && TailHolds(s, t)
    ensures NextTail(s, t).Some? ==> TailHolds(s, NextTail(s, t).value)
  {
    hide SlotsInv;
    if t.Scan? && ReadsFree(s, t.passed) {
      PassedRead(s, t.passed);
    }
  }

  /** Tails that hold before the step hold after it, and may advance. */
  ghost predicate Carries(s: State, s': State) {
    forall t :: TailHolds(s, t) ==>
      TailHolds(s', t) && (NextTail(s, t).Some? ==> TailHolds(s', NextTail(s, t).value))
  }

  lemma StepCarries(s: State, l: Label)
    requires SlotsInv(s) && !s.gate.active && !Step(s, l).gate.active
    ensures Carries(s, Step(s, l))
  {
    hide SlotsInv, TailHolds, Step;
    forall t | TailHolds(s, t)
      ensures TailHolds(Step(s, l), t) && (NextTail(s, t).Some? ==> TailHolds(Step(s, l), NextTail(s, t).value))
    {
      TailAdvances(s, t);
      TailStays(s, l, t);
      if NextTail(s, t).Some? {
        TailStays(s, l, NextTail(s, t).value);
      }
    }
  }

  lemma CallbackKeepsTails(s: State, c: nat, pick: bool)
    requires TailsHold(s) && c in s.callbacks && Carries(s, NextCallback(s, c, pick))
    ensures TailsHold(NextCallback(s, c, pick))
  {
    var s' := NextCallback(s, c, pick);
    assert TailHolds(s, GiveIdle) <==> Quiet(s, 5);
    assert TailHolds(s', GiveIdle) <==> Quiet(s', 5);
    assert TailHolds(s', LoadActive);
    hide NextTail, TailHolds, Quiet, TxAfterCallback;
  }

  lemma WorkerKeepsTails(s: State, pick: bool)
    requires TailsHold(s) && Carries(s, NextWorker(s, pick))
    ensures TailsHold(NextWorker(s, pick))
  {
    var s' := NextWorker(s, pick);
    assert TailHolds(s, GiveIdle) <==> Quiet(s, 5);
    assert TailHolds(s', GiveIdle) <==> Quiet(s', 5);
    assert TailHolds(s', LoadActive);
    hide NextTail, TailHolds, Quiet, TxAfter, EncodedAfter, LentAfter, MutexAfter;
  }

  lemma OthersKeepTails(s: State, l: Label)
    requires TailsHold(s) && Carries(s, Step(s, l)) && !l.CallbackStep? && !l.WorkerStep?
    ensures TailsHold(Step(s, l))
  {
    var s' := Step(s, l);
    assert TailHolds(s, GiveIdle) <==> Quiet(s, 5);
    assert TailHolds(s', GiveIdle) <==> Quiet(s', 5);
    assert TailHolds(s', LoadActive);
    hide NextTail, TailHolds, Quiet, NextHolder, NextMainPlace, MutexAfterMain;
  }

  lemma StepKeepsTails(s: State, l: Label)
    requires SlotsInv(s) && TailsHold(s) && !s.gate.active && !Step(s, l).gate.active
    ensures TailsHold(Step(s, l))
  {
    StepCarries(s, l);
    hide NextCallback, NextWorker, SlotsInv, TailsHold, Carries;
    match l {
      case CallbackStep(c, pick) =>
        if c in s.callbacks {
          CallbackKeepsTails(s, c, pick);
        }
      case WorkerStep(pick) => WorkerKeepsTails(s, pick);
      case _ => OthersKeepTails(s, l);
    }
  }

  /**
   If, once the gate is shut and the semaphore drained, every read that an idle check under way has passed still holds,
   then for as long as the gate stays shut a given semaphore means that nobody owns a buffer.
   */
  lemma {:induction false} FreshGiveMeansIdle(s: State, ls: seq<Label>)
    requires Inv(s) && TailsHold(s) && GateShut(s, ls)
    ensures Inv(Run(s, ls)) && TailsHold(Run(s, ls))
    ensures Run(s, ls).slots.idleGiven ==> NoOwner(Run(s, ls))
    decreases |ls|
  {
    if ls != [] {
      hide Step, TailsHold, Quiet;
      StepKeepsInv(s, ls[0]);
      assert !Step(s, ls[0]).gate.active;
      StepKeepsTails(s, ls[0]);
      FreshGiveMeansIdle(Step(s, ls[0]), ls[1..]);
    } else if s.slots.idleGiven {
      QuietMeansNoOwner(s);
    }
  }

  // ---------- The runs on which the wake-up goes wrong ----------

  ghost predicate Reachable(s: State) {
    exists ls :: Run(INITIAL, ls) == s
  }

  lemma Reach(s: State, ls: seq<Label>)
    requires Reachable(s)
    ensures Reachable(Run(s, ls))
  {
    hide Step;
    var first :| Run(INITIAL, first) == s;
    RunParts(INITIAL, first + ls, |first|);
    assert (first + ls)[..|first|] == first && (first + ls)[|first|..] == ls;
  }

  lemma ReachableInv(s: State)
    requires Reachable(s)
    ensures Inv(s)
  {
    var ls :| Run(INITIAL, ls) == s;
    InitialInv();
    RunKeepsInv(INITIAL, ls);
  }

  lemma RunOne(s: State, l: Label, ls: seq<Label>)
    ensures Run(s, [l] + ls) == Run(Step(s, l), ls)
    ensures Run(s, [l]) == Step(s, l)
  {
    hide Step;
    assert ([l] + ls)[1..] == ls && [l][1..] == [];
  }

  lemma ReachStep(s: State, l: Label)
    requires Reachable(s)
    ensures Reachable(Step(s, l))
  {
    hide Step;
    RunOne(s, l, []);
    Reach(s, [l]);
  }

  /** The state `start_video` leaves when the camera starts. */
  function Started(s: State): State {
    s.(gate := s.gate.(active := true, callbackSet := true, generation := Wrap32(s.gate.generation + 1)))
  }

  /** The state `request_video_stop_` leaves: the gate shut, the semaphore drained. */
  function StoppedAt(s: State): State {
    s.(gate := s.gate.(active := false,
                       generation := if s.gate.active then Wrap32(s.gate.generation + 1) else s.gate.generation),
       slots := s.slots.(idleGiven := false))
  }

  lemma StartReachable(s: State)
    requires Reachable(s) && s.control.NotHeld? && !s.gate.active
    requires s.gate.running && s.gate.encoderReady && !s.gate.shutdownPending
    ensures Reachable(Started(s))
  {
    var s1 := s.(control := StartPending);
    var s2 := s.(control := StartReady);
    var s3 := s.(control := StartActivate, gate := s.gate.(callbackSet := true, generation := Wrap32(s.gate.generation + 1)));
    var s4 := Started(s).(control := StartCamera);
    assert Step(s, TakeMutexToStart) == s1;
    assert Step(s1, ControlStep(true)) == s2;
    assert Step(s2, ControlStep(true)) == s3;
    assert Step(s3, ControlStep(true)) == s4;
    assert Step(s4, ControlStep(true)) == Started(s);
    hide Step, Reachable;
    ReachStep(s, TakeMutexToStart);
    ReachStep(s1, ControlStep(true));
    ReachStep(s2, ControlStep(true));
    ReachStep(s3, ControlStep(true));
    ReachStep(s4, ControlStep(true));
  }

  /** The steps of one stop request, one by one. */
  lemma StopSteps(s: State) returns (s1: State, s2: State, s3: State)
    requires s.control.NotHeld?
    ensures s1 == Step(s, TakeMutexToStop) && s1.slots == s.slots && s1.gate == s.gate
    ensures s2 == Step(s1, ControlStep(true)) && s2.slots == s.slots
    ensures s3 == Step(s2, ControlStep(true)) && s3.slots == s.slots
    ensures StoppedAt(s) == Step(s3, ControlStep(true))
    ensures !s2.gate.active && !s3.gate.active
  {
    s1 := s.(control := StopGate(false));
    s2 := s.(control := StopBump(false, s.gate.active), gate := s.gate.(active := false));
    s3 := s.(control := StopDrain(false), gate := StoppedAt(s).gate);
  }

  lemma StopReachable(s: State)
    requires Reachable(s) && s.control.NotHeld?
    ensures Reachable(StoppedAt(s))
  {
    var s1, s2, s3 := StopSteps(s);
    hide Step, Reachable, StoppedAt;
    ReachStep(s, TakeMutexToStop);
    ReachStep(s1, ControlStep(true));
    ReachStep(s2, ControlStep(true));
    ReachStep(s3, ControlStep(true));
  }

  lemma CallbackReaches(s: State, c: nat, pick: bool, s': State)
    requires Reachable(s) && c in s.callbacks && s' == NextCallback(s, c, pick)
    ensures Reachable(s')
  {
    assert Step(s, CallbackStep(c, pick)) == s';
    ReachStep(s, CallbackStep(c, pick));
  }

  /** A lone callback `c`, everything else idle. */
  function Alone(s: State, c: nat, pc: Callback, inFlight: nat): State {
    s.(callbacks := map[c := pc], slots := s.slots.(inFlight := inFlight))
  }

  /** Nothing in use, nobody under way. */
  predicate Quiescent(s: State) {
    && s.control.NotHeld? && s.main.Up? && s.gate.running && s.gate.encoderReady && !s.gate.shutdownPending
    && s.slots == Slots(TxSlots(TxSlot(0, 0), TxSlot(0, 0)), EncodedSlots(0, 0), 0, false)
    && s.worker.Top? && s.lent == {} && s.releases == map[] && s.callbacks == map[]
  }

  /** A callback admitted by an open gate. */
  lemma AdmittedReachable(s: State, c: nat)
    requires Reachable(s) && Quiescent(s) && s.gate.active
    ensures Reachable(Alone(s, c, Admitted, 1))
  {
    var s1 := Alone(s, c, Counted, 1);
    assert Step(s, Arrive(c)) == s1;
    ReachStep(s, Arrive(c));
    assert NextCallback(s1, c, true) == Alone(s, c, Admitted, 1);
    CallbackReaches(s1, c, true, Alone(s, c, Admitted, 1));
  }

  /** The callback's way from its last word to `n` reads passed, the gate shut and nothing in use. */
  lemma ScanStep(s: State, c: nat, k: nat, s': State)
    requires !s.gate.active && k <= 4 && Idle(s) && c in s.callbacks && s.callbacks[c] == LastTail(Scan(k))
    requires s' == s.(callbacks := s.callbacks[c := LastTail(if k == 4 then GiveIdle else Scan(k + 1))])
    ensures Step(s, CallbackStep(c, true)) == s'
  {
    assert ReadsFree(s, k);
  }

  lemma LeavingReachesGive(s: State, c: nat)
    requires Reachable(Alone(s, c, Leave, 1)) && Quiescent(s) && !s.gate.active
    ensures Reachable(Alone(s, c, LastTail(GiveIdle), 0))
  {
    var last := Alone(s, c, LastTail(LoadActive), 0);
    assert Step(Alone(s, c, Leave, 1), CallbackStep(c, true)) == last;
    ReachStep(Alone(s, c, Leave, 1), CallbackStep(c, true));
    assert Step(last, CallbackStep(c, true)) == Alone(s, c, LastTail(Scan(0)), 0);
    ReachStep(last, CallbackStep(c, true));
    for k := 0 to 5
      invariant Reachable(Alone(s, c, LastTail(if k == 5 then GiveIdle else Scan(k)), 0))
    {
      var here := Alone(s, c, LastTail(Scan(k)), 0);
      IdleIs(here);
      ScanStep(here, c, k, Alone(s, c, LastTail(if k == 4 then GiveIdle else Scan(k + 1)), 0));
      ReachStep(here, CallbackStep(c, true));
    }
  }

  /** A callback that was admitted, took no slot and is about to leave when the stop has drained the semaphore. */
  lemma LeavingReachable() returns (s: State)
    ensures Quiescent(s) && !s.gate.active && Reachable(Alone(s, 0, Leave, 1)) && Reachable(s)
  {
    assert Run(INITIAL, []) == INITIAL;
    StartReachable(INITIAL);
    var running := Started(INITIAL);
    AdmittedReachable(running, 0);
    CallbackReaches(Alone(running, 0, Admitted, 1), 0, false, Alone(running, 0, Leave, 1));
    StopReachable(Alone(running, 0, Leave, 1));
    StopReachable(running);
    s := StoppedAt(running);
    assert StoppedAt(Alone(running, 0, Leave, 1)) == Alone(s, 0, Leave, 1);
  }

  /**
   A give can be stale: there is a reachable state, just after a stop drained the semaphore, in which the next step
   gives it although an admitted callback is about to claim a slot. The thread that gives it passed its idle check
   before an earlier restart.
   */
  lemma StaleGiveIsPossible() returns (s: State)
    ensures Reachable(s) && !s.gate.active && !s.slots.idleGiven && s.control.NotHeld?
    ensures var s' := Step(s, CallbackStep(0, true)); s'.slots.idleGiven && !NoOwner(s')
  {
    var idle := LeavingReachable();
    LeavingReachesGive(idle, 0);
    var given := Alone(idle, 0, LastTail(GiveIdle), 0);
    StartReachable(given);
    var again := Started(given);
    var arrived := again.(slots := again.slots.(inFlight := 1), callbacks := again.callbacks[1 := Counted]);
    assert Step(again, Arrive(1)) == arrived;
    ReachStep(again, Arrive(1));
    var admitted := arrived.(callbacks := arrived.callbacks[1 := Admitted]);
    assert NextCallback(arrived, 1, true) == admitted;
    CallbackReaches(arrived, 1, true, admitted);
    StopReachable(admitted);
    s := StoppedAt(admitted);
    assert Step(s, CallbackStep(0, true)).callbacks[1].Admitted?;
  }

  lemma Prepend(s: State, l: Label, s': State, ls: seq<Label>, e: State)
    requires s' == Step(s, l) && !s.gate.active && GateShut(s', ls) && Run(s', ls) == e
    ensures GateShut(s, [l] + ls) && Run(s, [l] + ls) == e
  {
    hide Step;
    RunOne(s, l, ls);
    assert ([l] + ls)[1..] == ls;
  }

  lemma StopAsRun(s: State) returns (ls: seq<Label>)
    requires s.control.NotHeld? && !s.gate.active
    ensures GateShut(s, ls) && Run(s, ls) == StoppedAt(s)
  {
    var s1, s2, s3 := StopSteps(s);
    assert Run(StoppedAt(s), []) == StoppedAt(s) && GateShut(StoppedAt(s), []);
    hide Step, StoppedAt;
    Prepend(s3, ControlStep(true), StoppedAt(s), [], StoppedAt(s));
    Prepend(s2, ControlStep(true), s3, [ControlStep(true)] + [], StoppedAt(s));
    Prepend(s1, ControlStep(true), s2, [ControlStep(true)] + ([ControlStep(true)] + []), StoppedAt(s));
    ls := [TakeMutexToStop] + ([ControlStep(true)] + ([ControlStep(true)] + ([ControlStep(true)] + [])));
    Prepend(s, TakeMutexToStop, s1, ls[1..], StoppedAt(s));
  }

  /** The outcome no stopping caller should meet: all is free, nobody is left to give the semaphore, and it is not given. */
  predicate WakeUpLost(s: State) {
    Idle(s) && !ChecksAfterRelease(s) && !s.slots.idleGiven
  }

  /** Callback 0 on its way out, everything else idle: from its last release to the give, then the run `after`. */
  lemma LeavingAsRun(idle: State, after: seq<Label>, e: State) returns (ls: seq<Label>)
    requires Quiescent(idle) && !idle.gate.active
    requires GateShut(Alone(idle, 0, LastTail(GiveIdle), 0), after)
    requires Run(Alone(idle, 0, LastTail(GiveIdle), 0), after) == e
    ensures GateShut(Alone(idle, 0, LastTail(Scan(0)), 0), ls) && Run(Alone(idle, 0, LastTail(Scan(0)), 0), ls) == e
  {
    hide Step, GateShut, Run;
    ls := after;
    for k := 5 downto 0
      invariant GateShut(Alone(idle, 0, LastTail(if k == 5 then GiveIdle else Scan(k)), 0), ls)
      invariant Run(Alone(idle, 0, LastTail(if k == 5 then GiveIdle else Scan(k)), 0), ls) == e
    {
      var here := Alone(idle, 0, LastTail(Scan(k)), 0);
      var next := Alone(idle, 0, LastTail(if k == 4 then GiveIdle else Scan(k + 1)), 0);
      IdleIs(here);
      ScanStep(here, 0, k, next);
      Prepend(here, CallbackStep(0, true), next, ls, e);
      ls := [CallbackStep(0, true)] + ls;
    }
  }

  /** The first two and the last step of a leaving callback's way. */
  lemma LeavingEnds(idle: State)
    requires Quiescent(idle) && !idle.gate.active
    ensures Step(Alone(idle, 0, Leave, 1), CallbackStep(0, true)) == Alone(idle, 0, LastTail(LoadActive), 0)
    ensures Step(Alone(idle, 0, LastTail(LoadActive), 0), CallbackStep(0, true)) == Alone(idle, 0, LastTail(Scan(0)), 0)
    ensures Step(Alone(idle, 0, LastTail(GiveIdle), 0), CallbackStep(0, true))
            == idle.(slots := idle.slots.(idleGiven := true))
  {
    assert Alone(idle, 0, LastTail(GiveIdle), 0).callbacks - {0} == map[];
  }

  /**
   A second stop can take the first one's wake-up: the last callback gives the semaphore while the first stop waits,
   and the second stop drains it. The gate stays shut throughout.
   */
  lemma SecondStopTakesTheWakeUp() returns (s: State, ls: seq<Label>)
    ensures Reachable(s) && !s.gate.active && !Idle(s) && GateShut(s, ls) && WakeUpLost(Run(s, ls))
  {
    var idle := LeavingReachable();
    s := Alone(idle, 0, Leave, 1);
    IdleIs(s);
    var given := idle.(slots := idle.slots.(idleGiven := true));
    var end := StoppedAt(given);
    IdleIs(end);
    assert WakeUpLost(end);
    ls := StopAsRun(given);
    LeavingEnds(idle);
    hide Step, Reachable, StoppedAt, GateShut, Run, Idle, WakeUpLost;
    Prepend(Alone(idle, 0, LastTail(GiveIdle), 0), CallbackStep(0, true), given, ls, end);
    ls := LeavingAsRun(idle, [CallbackStep(0, true)] + ls, end);
    Prepend(Alone(idle, 0, LastTail(LoadActive), 0), CallbackStep(0, true), Alone(idle, 0, LastTail(Scan(0)), 0), ls, end);
    ls := [CallbackStep(0, true)] + ls;
    Prepend(s, CallbackStep(0, true), Alone(idle, 0, LastTail(LoadActive), 0), ls, end);
    ls := [CallbackStep(0, true)] + ls;
  }

  // ---------- The exiting worker ----------

  /** A frame queued in the first TX slot, everything else idle. */
  function Queued(s: State, generation: u32): State {
    s.(slots := s.slots.(tx := TxSlots(TxSlot(2, generation), TxSlot(0, 0))))
  }

  /** The owner of the first TX slot, which is in state `state`. */
  function Filling(s: State, pc: Callback, state: nat, generation: u32): State {
    Alone(s, 0, pc, 1).(slots := s.slots.(inFlight := 1, tx := TxSlots(TxSlot(state, generation), TxSlot(0, 0))))
  }

  /** An admitted callback can claim the first slot while the gate is open. */
  lemma OwnsReachable(s: State, g: u32)
    requires Reachable(s) && Quiescent(s) && s.gate.active && s.gate.generation == g
    ensures Reachable(Filling(s, Owns(First, g), 1, 0))
  {
    AdmittedReachable(s, 0);
    assert Filling(s, Admitted, 0, 0) == Alone(s, 0, Admitted, 1);
    hide Reachable;
    CallbackReaches(Filling(s, Admitted, 0, 0), 0, true, Filling(s, Claim(First, g), 0, 0));
    CallbackReaches(Filling(s, Claim(First, g), 0, 0), 0, true, Filling(s, Owns(First, g), 1, 0));
  }

  /** It can then fill the slot, publish it and leave. */
  lemma QueuedReachable(s: State, g: u32)
    requires Reachable(s) && Quiescent(s) && s.gate.active && s.gate.generation == g
    ensures Reachable(Queued(s, g))
  {
    OwnsReachable(s, g);
    hide Reachable, Quiescent;
    CallbackReaches(Filling(s, Owns(First, g), 1, 0), 0, true, Filling(s, Recheck(First, g), 1, 0));
    CallbackReaches(Filling(s, Recheck(First, g), 1, 0), 0, true, Filling(s, RecheckGeneration(First, g), 1, 0));
    CallbackReaches(Filling(s, RecheckGeneration(First, g), 1, 0), 0, true, Filling(s, Publish(First, g), 1, 0));
    PublishReaches(s, g);
    QueuedLeaves(s, g);
  }

  lemma PublishReaches(s: State, g: u32)
    requires Reachable(Filling(s, Publish(First, g), 1, 0))
    ensures Reachable(Filling(s, Leave, 2, g))
  {
    hide Reachable;
    CallbackReaches(Filling(s, Publish(First, g), 1, 0), 0, true, Filling(s, Leave, 2, g));
  }

  lemma QueuedLeaves(s: State, g: u32)
    requires Reachable(Filling(s, Leave, 2, g)) && Quiescent(s) && s.gate.active
    ensures Reachable(Queued(s, g))
  {
    var last := Queued(s, g).(callbacks := map[0 := LastTail(LoadActive)]);
    CallbackReaches(Filling(s, Leave, 2, g), 0, true, last);
    assert last.callbacks - {0} == map[];
    CallbackReaches(last, 0, true, Queued(s, g));
  }

  /** The shutdown of a machine with one queued frame, up to the worker's look at the running flag. */
  lemma ShutdownReaches(s: State) returns (s': State, ls: seq<Label>)
    requires s.control.NotHeld? && s.main.Up? && !s.gate.active && !s.slots.idleGiven
    ensures Run(s, ls) == s' && GateShut(s, ls)
    ensures s'.slots == s.slots && s'.worker == s.worker && s'.callbacks == s.callbacks && s'.releases == s.releases
    ensures !s'.gate.active && !s'.gate.running
  {
    var s1 := s.(main := Pending, gate := s.gate.(shutdownPending := true));
    var s2 := s1.(main := NotReady, gate := s1.gate.(encoderReady := false));
    var s3 := s2.(main := Stopping, control := StopGate(true));
    var s4 := s3.(control := StopBump(true, false));
    var s5 := s3.(control := StopDrain(true));
    var s6 := s3.(control := NotHeld, main := Stopped);
    s' := s6.(main := AwaitWorker, gate := s6.gate.(running := false));
    assert Step(s, MainStep) == s1 && Step(s1, MainStep) == s2 && Step(s2, MainStep) == s3;
    assert Step(s3, ControlStep(true)) == s4 && Step(s4, ControlStep(true)) == s5 && Step(s5, ControlStep(true)) == s6;
    assert Step(s6, MainStep) == s';
    assert Run(s', []) == s' && GateShut(s', []);
    hide Step, Run, GateShut;
    ls := [MainStep] + [];
    Prepend(s6, MainStep, s', [], s');
    Prepend(s5, ControlStep(true), s6, ls, s');
    ls := [ControlStep(true)] + ls;
    Prepend(s4, ControlStep(true), s5, ls, s');
    ls := [ControlStep(true)] + ls;
    Prepend(s3, ControlStep(true), s4, ls, s');
    ls := [ControlStep(true)] + ls;
    Prepend(s2, MainStep, s3, ls, s');
    ls := [MainStep] + ls;
    Prepend(s1, MainStep, s2, ls, s');
    ls := [MainStep] + ls;
    Prepend(s, MainStep, s1, ls, s');
    ls := [MainStep] + ls;
  }

  /** An exiting worker throws a queued frame away and gives nothing. */
  lemma ExitingWorkerDiscards(s: State) returns (ls: seq<Label>)
    requires s.worker.Top? && !s.gate.running && !s.gate.active && s.slots.tx.first.state == 2 && s.slots.tx.second.state == 0
    ensures GateShut(s, ls)
    ensures Run(s, ls) == s.(worker := Gone, slots := s.slots.(tx := s.slots.tx.(first := s.slots.tx.first.(state := 0))))
  {
    var s1 := s.(worker := Discard(First));
    var s2 := s.(worker := Discard(Second), slots := s.slots.(tx := s.slots.tx.(first := s.slots.tx.first.(state := 0))));
    var s3 := s2.(worker := Gone);
    assert Step(s, WorkerStep(true)) == s1 && Step(s1, WorkerStep(true)) == s2 && Step(s2, WorkerStep(true)) == s3;
    assert Run(s3, []) == s3 && GateShut(s3, []);
    hide Step, Run, GateShut;
    Prepend(s2, WorkerStep(true), s3, [], s3);
    Prepend(s1, WorkerStep(true), s2, [WorkerStep(true)] + [], s3);
    ls := [WorkerStep(true)] + ([WorkerStep(true)] + ([WorkerStep(true)] + []));
    Prepend(s, WorkerStep(true), s1, ls[1..], s3);
  }

  lemma RunsJoin(s: State, ls: seq<Label>, more: seq<Label>)
    requires GateShut(s, ls) && GateShut(Run(s, ls), more)
    ensures GateShut(s, ls + more) && Run(s, ls + more) == Run(Run(s, ls), more)
    decreases |ls|
  {
    hide Step;
    if ls == [] {
      assert ls + more == more;
    } else {
      assert (ls + more)[0] == ls[0] && (ls + more)[1..] == ls[1..] + more;
      RunsJoin(Step(s, ls[0]), ls[1..], more);
    }
  }

  /**
   A worker that exits takes the wake-up with it: a stop finds a frame queued and waits, shutdown ends the worker,
   and the worker's last act frees the slot without the give that every other release ends with.
   */
  lemma WorkerExitLosesTheWakeUp() returns (s: State, ls: seq<Label>)
    ensures Reachable(s) && !s.gate.active && !Idle(s) && GateShut(s, ls) && WakeUpLost(Run(s, ls))
  {
    assert Run(INITIAL, []) == INITIAL;
    StartReachable(INITIAL);
    var running := Started(INITIAL);
    QueuedReachable(running, running.gate.generation);
    StopReachable(Queued(running, running.gate.generation));
    s := StoppedAt(Queued(running, running.gate.generation));
    IdleIs(s);
    var s', shutdown := ShutdownReaches(s);
    var exit := ExitingWorkerDiscards(s');
    IdleIs(Run(s', exit));
    hide Step, Run, GateShut, Reachable;
    RunsJoin(s, shutdown, exit);
    ls := shutdown + exit;
  }

  // ---------- The gate opens again ----------

  /** The run's only disturbance is that the gate opens. */
  predicate OnlyOpens(s: State, ls: seq<Label>)
    decreases |ls|
  {
    ls == [] || ((Disturbs(s, ls[0]) ==> Step(s, ls[0]).gate.active) && OnlyOpens(Step(s, ls[0]), ls[1..]))
  }

  lemma OpensBefore(s: State, l: Label, s': State, ls: seq<Label>) returns (longer: seq<Label>)
    requires s' == Step(s, l) && (Disturbs(s, l) ==> s'.gate.active) && OnlyOpens(s', ls)
    ensures longer == [l] + ls && OnlyOpens(s, longer) && Run(s, longer) == Run(s', ls)
  {
    hide Step, Disturbs;
    longer := [l] + ls;
    assert longer[1..] == ls;
  }

  /** Nothing about such a step but the gate can disturb: the semaphore is not given and the worker does not exit. */
  lemma CannotDisturb(s: State, l: Label)
    requires !s.slots.idleGiven && !s.worker.Discard?
    ensures Disturbs(s, l) ==> Step(s, l).gate.active
  {
    hide Step;
  }

  /** A start opens the gate while callback 0 is about to leave. */
  lemma RestartOpens(s: State, ls: seq<Label>) returns (longer: seq<Label>)
    requires s.control.NotHeld? && !s.gate.active && !s.slots.idleGiven && s.worker.Top?
    requires s.gate.running && s.gate.encoderReady && !s.gate.shutdownPending && OnlyOpens(Started(s), ls)
    ensures OnlyOpens(s, longer) && Run(s, longer) == Run(Started(s), ls)
  {
    var s1 := s.(control := StartPending);
    var s2 := s.(control := StartReady);
    var s3 := s.(control := StartActivate, gate := s.gate.(callbackSet := true, generation := Wrap32(s.gate.generation + 1)));
    var s4 := Started(s).(control := StartCamera);
    assert Step(s, TakeMutexToStart) == s1 && Step(s1, ControlStep(true)) == s2 && Step(s2, ControlStep(true)) == s3;
    assert Step(s3, ControlStep(true)) == s4 && Step(s4, ControlStep(true)) == Started(s);
    hide Step, Disturbs, OnlyOpens, Run, Started;
    CannotDisturb(s4, ControlStep(true));
    longer := OpensBefore(s4, ControlStep(true), Started(s), ls);
    CannotDisturb(s3, ControlStep(true));
    longer := OpensBefore(s3, ControlStep(true), s4, longer);
    CannotDisturb(s2, ControlStep(true));
    longer := OpensBefore(s2, ControlStep(true), s3, longer);
    CannotDisturb(s1, ControlStep(true));
    longer := OpensBefore(s1, ControlStep(true), s2, longer);
    CannotDisturb(s, TakeMutexToStart);
    longer := OpensBefore(s, TakeMutexToStart, s1, longer);
  }

  /**
   A restart takes the wake-up with it: a stop waits for the last callback, a start opens the gate, and the callback
   finds it open and gives nothing. Nobody takes the semaphore and no worker exits.
   */
  lemma RestartLosesTheWakeUp() returns (s: State, ls: seq<Label>)
    ensures Reachable(s) && !s.gate.active && !Idle(s) && OnlyOpens(s, ls) && WakeUpLost(Run(s, ls))
  {
    var idle := LeavingReachable();
    s := Alone(idle, 0, Leave, 1);
    var last, end := Alone(Started(idle), 0, LastTail(LoadActive), 0), Started(idle);
    IdleIs(s);
    IdleIs(end);
    assert WakeUpLost(end);
    assert last.callbacks - {0} == map[];
    assert Step(Started(s), CallbackStep(0, true)) == last && Step(last, CallbackStep(0, true)) == end;
    assert OnlyOpens(end, []) && Run(end, []) == end;
    hide Step, Disturbs, OnlyOpens, Run, Reachable, WakeUpLost;
    CannotDisturb(last, CallbackStep(0, true));
    ls := OpensBefore(last, CallbackStep(0, true), end, []);
    CannotDisturb(Started(s), CallbackStep(0, true));
    ls := OpensBefore(Started(s), CallbackStep(0, true), last, ls);
    ls := RestartOpens(s, ls);
  }
}
