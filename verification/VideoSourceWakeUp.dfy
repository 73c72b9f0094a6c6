/**
 Exactly when a stop misses its wake-up although the gate stays shut and nobody else takes the semaphore
 (esphome/components/esp_h264_video_source/esp_h264_video_source.cpp).
 */
module VideoSourceWakeUp {
  import opened Machine
  import opened VideoSource
  import opened VideoSourceProofs
  import opened VideoSourceTheorems

  /** No step takes the semaphore. */
  predicate NobodyTakes(s: State, ls: seq<Label>)
    decreases |ls|
  {
    ls == [] || ((s.slots.idleGiven ==> Step(s, ls[0]).slots.idleGiven) && NobodyTakes(Step(s, ls[0]), ls[1..]))
  }

  predicate NoArrival(ls: seq<Label>) {
    forall l :: l in ls ==> !l.Arrive?
  }

  /**
   The exiting worker discards a queued frame, and that was the last thing in use: the other words are free, no thread
   is in the idle check of a release, and the semaphore has not been given.
   */
  predicate DiscardsLast(s: State, l: Label) {
    && l.WorkerStep? && s.worker.Discard? && s.slots.tx.At(s.worker.index).state == 2
    && WakeUpLost(Step(s, l))
  }

  /** At some step of the run the exiting worker discards the last word in use, and no callback arrives after it. */
  predicate DiscardEndsIt(s: State, ls: seq<Label>)
    decreases |ls|
  {
    ls != [] && ((DiscardsLast(s, ls[0]) && NoArrival(ls[1..])) || DiscardEndsIt(Step(s, ls[0]), ls[1..]))
  }

  /** The wake-up is lost, and the worker that lost it is on its way out. */
  predicate LostForGood(s: State) {
    WakeUpLost(s) && (s.worker.Discard? || s.worker.Gone?)
  }

  lemma LostIsNotComing(s: State)
    ensures WakeUpLost(s) <==> !WakeUpComing(s)
  {
  }

  lemma LostIsEmpty(s: State)
    requires Inv(s) && LostForGood(s)
    ensures s.callbacks == map[] && s.releases == map[] && s.lent == {}
    ensures s.slots.tx.first.state == 0 && s.slots.tx.second.state == 0
  {
    IdleIs(s);
    assert InFlight(s) == {};
    assert InFlight(s) == s.callbacks.Keys;
    WorkerSlots(s, First);
    WorkerSlots(s, Second);
    NothingLent(s.lent);
  }

  lemma NothingLent(lent: set<Two>)
    requires First !in lent && Second !in lent
    ensures lent == {}
  {
    forall e: Two
      ensures e !in lent
    {
      match e {
        case First =>
        case Second =>
      }
    }
  }

  lemma StaysLost(s: State, l: Label)
    requires Inv(s) && LostForGood(s) && !Step(s, l).gate.active && !l.Arrive?
    ensures LostForGood(Step(s, l))
  {
    LostIsEmpty(s);
    IdleIs(s);
    IdleIs(Step(s, l));
    hide Inv;
  }

  lemma ArrivalRevives(s: State, c: nat)
    requires Inv(s) && LostForGood(s)
    ensures WakeUpComing(Step(s, Arrive(c)))
  {
    LostIsEmpty(s);
    IdleIs(s);
    IdleIs(Step(s, Arrive(c)));
    hide Inv;
  }

  /** Of the steps that leave the semaphore alone only such a discard loses a wake-up that was to come. */
  lemma OnlyDiscardLoses(s: State, l: Label)
    requires Inv(s) && !s.gate.active && WakeUpComing(s) && !Step(s, l).gate.active
    requires s.slots.idleGiven ==> Step(s, l).slots.idleGiven
    ensures WakeUpLost(Step(s, l)) <==> DiscardsLast(s, l)
    ensures DiscardsLast(s, l) ==> LostForGood(Step(s, l))
  {
    if !Disturbs(s, l) {
      StepWakesUp(s, l);
    }
    hide Inv, WakeUpLost, WakeUpComing;
    LostIsNotComing(Step(s, l));
  }

  lemma {:induction false} LostFrom(s: State, ls: seq<Label>)
    requires Inv(s) && GateShut(s, ls) && NobodyTakes(s, ls)
    requires WakeUpComing(s) || LostForGood(s)
    ensures WakeUpComing(s) ==> (WakeUpLost(Run(s, ls)) <==> DiscardEndsIt(s, ls))
    ensures LostForGood(s) ==> (WakeUpLost(Run(s, ls)) <==> NoArrival(ls) || DiscardEndsIt(s, ls))
    decreases |ls|
  {
    LostIsNotComing(s);
    if ls != [] {
      var t := Step(s, ls[0]);
      StepKeepsInv(s, ls[0]);
      assert !t.gate.active;
      LostIsNotComing(t);
      if WakeUpComing(s) {
        OnlyDiscardLoses(s, ls[0]);
      } else {
        LostIsEmpty(s);
        assert !DiscardsLast(s, ls[0]);
        match ls[0] {
          case Arrive(c) => ArrivalRevives(s, c);
          case _ => StaysLost(s, ls[0]);
        }
      }
      assert NoArrival(ls) <==> !ls[0].Arrive? && NoArrival(ls[1..]);
      hide Inv, Step, WakeUpLost, WakeUpComing, DiscardsLast, NoArrival;
      LostFrom(t, ls[1..]);
    }
  }

  /**
   From a state with the gate shut in which a stop's own check finds something in use, on every run with the gate shut
   on which nobody else takes the semaphore: at the end everything is free, nobody is left to give the semaphore and it
   is not given if and only if the last word was freed by the exiting worker's discard and no callback arrived after it.
   */
  lemma WakeUpLostIffDiscarded(s: State, ls: seq<Label>)
    requires Inv(s) && !Idle(s) && GateShut(s, ls) && NobodyTakes(s, ls)
    ensures WakeUpLost(Run(s, ls)) <==> DiscardEndsIt(s, ls)
  {
    LostFrom(s, ls);
  }
}
