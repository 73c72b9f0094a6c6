/**
 What a given semaphore is worth to a stop that has just drained it
 (esphome/components/esp_h264_video_source/esp_h264_video_source.cpp): exactly which releases under way can give it
 while a callback is still about to claim a slot.
 */
module VideoSourceStale {
  import opened Machine
  import opened VideoSource
  import opened VideoSourceProofs
  import opened VideoSourceTheorems

  /** The callback was admitted and owns nothing yet. */
  predicate Claiming(pc: Callback) {
    pc.Admitted? || pc.Claim?
  }

  /** A thread in the tail of a release: a consumer that gave a slot back, or a callback. */
  datatype Giver = Consumer(id: nat) | Camera(id: nat)

  predicate HasTail(s: State, g: Giver) {
    match g
    case Consumer(r) => r in s.releases
    case Camera(d) => d in s.callbacks && (s.callbacks[d].ReleaseTail? || s.callbacks[d].LastTail?)
  }

  function TailOf(s: State, g: Giver): Tail
    requires HasTail(s, g)
  {
    match g
    case Consumer(r) => s.releases[r]
    case Camera(d) => s.callbacks[d].tail
  }

  /** The thread has found the gate shut and its first read, of the callback count, free. */
  predicate PastFirstRead(t: Tail) {
    t.GiveIdle? || (t.Scan? && 1 <= t.passed)
  }

  /** No consumer or callback is past the first read of an idle check. */
  ghost predicate GiversFresh(s: State) {
    forall g :: HasTail(s, g) ==> !PastFirstRead(TailOf(s, g))
  }

  /** Nor is the worker. */
  predicate WorkerFresh(s: State) {
    s.worker.IdleTail? || s.worker.TxTail? ==> !PastFirstRead(s.worker.tail)
  }

  /**
   If no thread is past the first read of a release's idle check when the semaphore has been drained, then for as long
   as the gate stays shut a given semaphore means that nobody owns a buffer or can come to own one.
   */
  lemma DrainedGiveMeansIdle(s: State, ls: seq<Label>)
    requires Inv(s) && !s.slots.idleGiven && GiversFresh(s) && WorkerFresh(s) && GateShut(s, ls)
    ensures Run(s, ls).slots.idleGiven ==> NoOwner(Run(s, ls))
  {
    assert TailsHold(s) by {
      assert forall r :: r in s.releases ==> HasTail(s, Consumer(r)) && !PastFirstRead(TailOf(s, Consumer(r)));
      assert forall d :: d in s.callbacks && (s.callbacks[d].ReleaseTail? || s.callbacks[d].LastTail?) ==>
          HasTail(s, Camera(d)) && !PastFirstRead(TailOf(s, Camera(d)));
    }
    FreshGiveMeansIdle(s, ls);
  }

  // ---------- No slot is orphaned ----------

  predicate OwnsTx(s: State, c: nat, i: Two) {
    c in s.callbacks && CallbackTx(s.callbacks[c]) == Some(i)
  }

  /** A slot is free, a callback's, queued or the worker's, and a callback's slot has one. */
  ghost predicate SlotOwned(s: State, i: Two) {
    && s.slots.tx.At(i).state <= 3
    && (s.slots.tx.At(i).state == 1 ==> exists c :: OwnsTx(s, c, i))
  }

  lemma CallbackKeepsOwned(s: State, c: nat, pick: bool, i: Two)
    requires SlotsInv(s) && SlotOwned(s, i) && c in s.callbacks
    ensures SlotOwned(NextCallback(s, c, pick), i)
  {
    var s' := NextCallback(s, c, pick);
    if s.slots.tx.At(i).state == 1 {
      var d :| OwnsTx(s, d, i);
      assert d != c ==> OwnsTx(s', d, i);
      assert d == c && s'.slots.tx.At(i).state == 1 ==> OwnsTx(s', c, i);
    } else {
      assert s'.slots.tx.At(i).state == 1 ==> OwnsTx(s', c, i);
    }
  }

  lemma OthersKeepOwned(s: State, l: Label, i: Two)
    requires SlotsInv(s) && SlotOwned(s, i) && !l.CallbackStep?
    ensures SlotOwned(Step(s, l), i)
  {
    var s' := Step(s, l);
    hide NextHolder, NextMainPlace, MutexAfterMain, NextPlace, MutexAfter, LentAfter, EncodedAfter, NextTail;
    assert s'.slots.tx.At(i).state == s.slots.tx.At(i).state || s'.slots.tx.At(i).state in {0, 3};
    if s.slots.tx.At(i).state == 1 {
      var d :| OwnsTx(s, d, i);
      assert OwnsTx(s', d, i);
    }
  }

  /** The invariant of every reachable state, with the owner of each slot in use. */
  ghost predicate FullInv(s: State) {
    Inv(s) && SlotOwned(s, First) && SlotOwned(s, Second)
  }

  lemma StepKeepsFullInv(s: State, l: Label)
    requires FullInv(s)
    ensures FullInv(Step(s, l))
  {
    StepKeepsInv(s, l);
    forall i: Two
      ensures SlotOwned(Step(s, l), i)
    {
      assert SlotOwned(s, First) && SlotOwned(s, Second);
      hide Step, SlotOwned, SlotsInv, NextCallback;
      match l {
        case CallbackStep(c, pick) =>
          if c in s.callbacks {
            CallbackKeepsOwned(s, c, pick, i);
          }
        case _ => OthersKeepOwned(s, l, i);
      }
    }
  }

  lemma {:induction false} RunKeepsFullInv(s: State, ls: seq<Label>)
    requires FullInv(s)
    ensures FullInv(Run(s, ls))
    decreases |ls|
  {
    hide Step, FullInv;
    if ls != [] {
      StepKeepsFullInv(s, ls[0]);
      RunKeepsFullInv(Step(s, ls[0]), ls[1..]);
    }
  }

  lemma ReachableFullInv(s: State)
    requires Reachable(s)
    ensures FullInv(s)
  {
    var ls :| Run(INITIAL, ls) == s;
    InitialInv();
    hide Step, Run;
    RunKeepsFullInv(INITIAL, ls);
  }

  // ---------- The other direction ----------

  /** Some run with the gate shut throughout gives the semaphore while somebody owns a buffer or can come to own one. */
  ghost predicate Misleads(s: State) {
    exists ls :: GateShut(s, ls) && Run(s, ls).slots.idleGiven && !NoOwner(Run(s, ls))
  }

  lemma MisleadsBefore(s: State, l: Label)
    requires !s.gate.active && Misleads(Step(s, l))
    ensures Misleads(s)
  {
    var ls :| GateShut(Step(s, l), ls) && Run(Step(s, l), ls).slots.idleGiven && !NoOwner(Run(Step(s, l), ls));
    hide Step, NoOwner;
    Prepend(s, l, Step(s, l), ls, Run(Step(s, l), ls));
  }

  /** The gate is shut, no controller holds the mutex, the worker runs, `c` is about to claim, `g` is past its first read. */
  ghost predicate Ready(s: State, c: nat, g: Giver) {
    && FullInv(s) && !s.gate.active && s.gate.running
    && (s.control.NotHeld? || s.control.ByWorker?)
    && !s.worker.Discard? && !s.worker.Gone?
    && c in s.callbacks && Claiming(s.callbacks[c])
    && HasTail(s, g) && PastFirstRead(TailOf(s, g))
  }

  lemma GivenMisleads(s: State, c: nat)
    requires !s.gate.active && s.slots.idleGiven && c in s.callbacks && Claiming(s.callbacks[c])
    ensures Misleads(s)
  {
    assert Engaged(s.callbacks[c]);
    assert GateShut(s, []) && Run(s, []) == s;
  }

  /** The work left on a TX slot: to be released or published, to be taken by the worker, to be released by it. */
  function Work(state: nat): nat {
    if state == 0 then 0 else if state == 3 then 1 else if state == 2 then 2 else 3
  }

  function TxWork(s: State): nat {
    Work(s.slots.tx.first.state) + Work(s.slots.tx.second.state)
  }

  /** How far a callback is from letting its slot go, by publishing or by releasing it. */
  function OwnerRank(pc: Callback): nat {
    if pc.Publish? || pc.Release? then 1 else 2
  }

  function TailRank(t: Tail): nat {
    match t
    case LoadActive => 7
    case Scan(k) => if k <= 4 then 6 - k else 1
    case GiveIdle => 0
  }

  /** The worker is about to take a queued slot. */
  predicate Aims(s: State) {
    || (s.worker.TryClaim? && s.slots.tx.At(s.worker.index).state == 2)
    || (s.worker.LookSecond? && s.worker.sawFirst == (s.slots.tx.first.state == 2))
  }

  /** How far the worker is from its next change of a slot's state, when there is a slot for it to change. */
  function WorkerRank(s: State): nat {
    match s.worker
    case TryClaim(_) => if Aims(s) then 1 else 5
    case LookSecond(_) => if Aims(s) then 2 else 16
    case LookFirst => 3
    case Top => 4
    case Asleep => 5
    case IdleTail(t) => 6 + TailRank(t)
    case TxTail(t) => 6 + TailRank(t)
    case ReleaseTx(_) => 1
    case DropEncoded(_, _) => 2
    case Unlock(_, _) => 3
    case CheckActive(_, _) => 4
    case AwaitMutex(_, _) => 5
    case Encoding(_, _) => 6
    case GrabEncoded(_, e) => if e.First? then 8 else 7
    case HoldingGeneration(_) => 9
    case Holding(_) => 10
    case _ => 0
  }

  lemma OwnerMoves(s: State, c: nat, g: Giver, d: nat)
    requires Ready(s, c, g) && d in s.callbacks && CallbackTx(s.callbacks[d]).Some?
    ensures Ready(Step(s, CallbackStep(d, false)), c, g)
  {
    StepKeepsFullInv(s, CallbackStep(d, false));
    hide FullInv, NextTail, PastFirstRead, TxAfterCallback, NextCallbackPlace;
  }

  /** The owner's next step takes it nearer to letting its slot go. */
  lemma OwnerNears(s: State, d: nat)
    requires SlotsInv(s) && !s.gate.active && d in s.callbacks && CallbackTx(s.callbacks[d]).Some?
    ensures var s' := NextCallback(s, d, false);
            TxWork(s') < TxWork(s)
            || (TxWork(s') == TxWork(s) && d in s'.callbacks && CallbackTx(s'.callbacks[d]).Some?
                && OwnerRank(s'.callbacks[d]) < OwnerRank(s.callbacks[d]))
  {
    var i := CallbackTx(s.callbacks[d]).value;
    assert s.slots.tx.At(i).state == 1;
    hide SlotsInv, NextTail;
  }

  lemma WorkerMoves(s: State, c: nat, g: Giver)
    requires Ready(s, c, g)
    ensures Ready(Step(s, WorkerStep(false)), c, g)
  {
    StepKeepsFullInv(s, WorkerStep(false));
    assert s.control.ByWorker? <==> WorkerCritical(s.worker);
    hide FullInv, TxAfter, EncodedAfter, LentAfter, NextTail;
  }

  /** The step does some of the work left on the slots, or brings the worker nearer to it. */
  predicate Nearer(s: State, s': State) {
    TxWork(s') < TxWork(s) || (TxWork(s') == TxWork(s) && WorkerRank(s') < WorkerRank(s))
  }

  /** A worker that holds a slot comes nearer to releasing it. */
  lemma HolderNears(s: State)
    requires !s.gate.active && WorkerTx(s.worker).Some? && s.slots.tx.At(s.worker.index).state == 3
    requires !s.worker.CheckGeneration? && !s.worker.HandOver? && (s.worker.AwaitMutex? ==> s.control.NotHeld?)
    ensures Nearer(s, NextWorker(s, false))
  {
    hide EncodedAfter, LentAfter, MutexAfter, ReadsFree;
    if !s.worker.ReleaseTx? {
      assert NextWorker(s, false).slots.tx == s.slots.tx;
      hide TxWork, TxAfter;
    }
  }

  /** One that holds none comes nearer to the next queued slot. */
  lemma SeekerNears(s: State)
    requires s.gate.running && WorkerTx(s.worker).None? && !s.worker.Discard? && !s.worker.Gone?
    requires s.slots.tx.first.state in {0, 2} && s.slots.tx.second.state in {0, 2} && TxWork(s) > 0
    ensures Nearer(s, NextWorker(s, false))
  {
    hide ReadsFree;
  }

  lemma WorkerNears(s: State)
    requires SlotsInv(s) && MutexInv(s) && !s.gate.active && s.gate.running && (s.control.NotHeld? || s.control.ByWorker?)
    requires !s.worker.Discard? && !s.worker.Gone? && TxWork(s) > 0
    requires s.slots.tx.first.state in {0, 2, 3} && s.slots.tx.second.state in {0, 2, 3}
    ensures Nearer(s, NextWorker(s, false))
  {
    if WorkerTx(s.worker).Some? {
      WorkerSlots(s, s.worker.index);
      hide SlotsInv;
      HolderNears(s);
    } else {
      WorkerSlots(s, First);
      WorkerSlots(s, Second);
      hide SlotsInv;
      SeekerNears(s);
    }
  }

  lemma GiveBackSteps(s: State, c: nat, g: Giver, e: Two, r: nat)
    requires Ready(s, c, g) && e in s.lent && r !in s.releases
    ensures var s' := Step(s, GiveBack(e, r)); Ready(s', c, g) && TxWork(s') == TxWork(s) && |s'.lent| < |s.lent|
  {
    StepKeepsFullInv(s, GiveBack(e, r));
    hide FullInv;
  }

  /** The step of the thread in the tail. */
  function StepOf(g: Giver): Label {
    match g
    case Consumer(r) => ReleaseStep(r)
    case Camera(d) => CallbackStep(d, false)
  }

  lemma AllFree(s: State)
    requires SlotsInv(s) && TxWork(s) == 0 && s.lent == {}
    ensures forall k :: 1 <= k ==> ReadsFree(s, k)
  {
    forall i: Two
      ensures WorkerTx(s.worker) != Some(i)
    {
      assert s.slots.tx.At(i).state == 0;
      WorkerSlots(s, i);
    }
    NoneOfTwo(WorkerTx(s.worker));
    assert WorkerEncoded(s.worker).None?;
    assert s.slots.encoded.At(First) == 0 && s.slots.encoded.At(Second) == 0;
  }

  lemma TailSteps(s: State, c: nat, g: Giver)
    requires Ready(s, c, g) && TxWork(s) == 0 && s.lent == {} && !s.slots.idleGiven
    ensures var s' := Step(s, StepOf(g));
            && TxWork(s') == 0 && s'.lent == {} && !s'.gate.active
            && (TailOf(s, g).GiveIdle? ==> s'.slots.idleGiven && c in s'.callbacks && Claiming(s'.callbacks[c]))
            && (TailOf(s, g).Scan? ==> Ready(s', c, g) && TailRank(TailOf(s', g)) < TailRank(TailOf(s, g)))
  {
    AllFree(s);
    StepKeepsFullInv(s, StepOf(g));
    hide FullInv, ReadsFree;
  }

  // ---------- The run ----------

  lemma {:induction false} DriveOwner(s: State, c: nat, g: Giver, d: nat)
    requires Ready(s, c, g) && d in s.callbacks && CallbackTx(s.callbacks[d]).Some?
    ensures Misleads(s)
    decreases TxWork(s), 1, OwnerRank(s.callbacks[d])
  {
    OwnerMoves(s, c, g, d);
    OwnerNears(s, d);
    var s' := Step(s, CallbackStep(d, false));
    assert s' == NextCallback(s, d, false);
    hide Step, NextCallback, TxWork, OwnerRank, FullInv, Misleads;
    if TxWork(s') < TxWork(s) {
      Drive(s', c, g);
    } else {
      DriveOwner(s', c, g, d);
    }
    MisleadsBefore(s, CallbackStep(d, false));
  }

  lemma {:induction false} DriveWorker(s: State, c: nat, g: Giver)
    requires Ready(s, c, g) && TxWork(s) > 0
    requires forall d :: d in s.callbacks ==> CallbackTx(s.callbacks[d]).None?
    ensures Misleads(s)
    decreases TxWork(s), 1, WorkerRank(s)
  {
    assert s.slots.tx.first.state in {0, 2, 3} && s.slots.tx.second.state in {0, 2, 3} by {
      assert SlotOwned(s, First) && SlotOwned(s, Second);
    }
    WorkerMoves(s, c, g);
    WorkerNears(s);
    var s' := Step(s, WorkerStep(false));
    assert s' == NextWorker(s, false) && s'.callbacks == s.callbacks;
    hide Step, NextWorker, TxWork, WorkerRank, FullInv, Misleads;
    if TxWork(s') < TxWork(s) {
      Drive(s', c, g);
    } else {
      DriveWorker(s', c, g);
    }
    MisleadsBefore(s, WorkerStep(false));
  }

  lemma {:induction false} DriveRest(s: State, c: nat, g: Giver)
    requires Ready(s, c, g) && TxWork(s) == 0
    ensures Misleads(s)
    decreases TxWork(s), 1, |s.lent|, TailRank(TailOf(s, g))
  {
    hide Step, TxWork, TailRank, FullInv, Misleads;
    if s.slots.idleGiven {
      GivenMisleads(s, c);
    } else if s.lent != {} {
      var e :| e in s.lent;
      var r := UnusedId(s.releases.Keys);
      GiveBackSteps(s, c, g, e, r);
      DriveRest(Step(s, GiveBack(e, r)), c, g);
      MisleadsBefore(s, GiveBack(e, r));
    } else {
      TailSteps(s, c, g);
      var s' := Step(s, StepOf(g));
      if TailOf(s, g).Scan? {
        DriveRest(s', c, g);
      } else {
        GivenMisleads(s', c);
      }
      MisleadsBefore(s, StepOf(g));
    }
  }

  lemma {:induction false} Drive(s: State, c: nat, g: Giver)
    requires Ready(s, c, g)
    ensures Misleads(s)
    decreases TxWork(s), 2
  {
    if TxWork(s) == 0 {
      DriveRest(s, c, g);
    } else if d :| d in s.callbacks && CallbackTx(s.callbacks[d]).Some? {
      DriveOwner(s, c, g, d);
    } else {
      DriveWorker(s, c, g);
    }
  }

  // ---------- Exactly which tails mislead ----------

  /**
   Suppose a callback is between its admission and its claim when the semaphore has been drained, no controller holds
   the mutex, and the worker runs and is not in a tail of its own. Then a give can mislead the stop if and only if some
   consumer or callback is past the first read of an older release's idle check.
   */
  lemma MisleadsIffPastRead(s: State, c: nat)
    requires Reachable(s) && !s.gate.active && !s.slots.idleGiven && s.control.NotHeld? && s.gate.running
    requires !s.worker.Discard? && !s.worker.Gone? && WorkerFresh(s)
    requires c in s.callbacks && Claiming(s.callbacks[c])
    ensures Misleads(s) <==> exists g :: HasTail(s, g) && PastFirstRead(TailOf(s, g))
  {
    ReachableFullInv(s);
    if g :| HasTail(s, g) && PastFirstRead(TailOf(s, g)) {
      hide FullInv;
      Drive(s, c, g);
    } else {
      hide Misleads;
      forall ls | GateShut(s, ls)
        ensures Run(s, ls).slots.idleGiven ==> NoOwner(Run(s, ls))
      {
        DrainedGiveMeansIdle(s, ls);
      }
    }
  }
}
