/**
 The jitter buffer object: a fixed table of slot descriptors over one flat byte array, of which every slot
 in use owns `frameCapacity` bytes from its own offset on. Every method is proved to take the value of the
 buffer (`Model()`) where the functions of `JitterModel` say.
 */
module JitterBuffer {
  import opened Machine
  import opened JitterModel

  /** `pcm` is the slot's offset into the storage; the pointer of that name in the source. */
  datatype Slot = Slot(valid: bool, meta: Meta, sequence: u16, bytes: nat, pcm: nat)

  const NO_META := Meta(false, false, 0, 0)

  /** The offset of slot `i` in the storage. */
  function Offset(i: nat, capacity: nat): (offset: nat)
    ensures offset == i * capacity
  {
    if i == 0 then 0 else Offset(i - 1, capacity) + capacity
  }

  lemma OffsetsGrow(i: nat, j: nat, capacity: nat)
    requires i <= j
    ensures Offset(i, capacity) <= Offset(j, capacity)
  {
  }

  class RtpJitterBuffer {
    const storage: array<byte>
    const frameCapacity: nat
    const slotCount: nat
    const prebuffer: nat
    const slots: array<Slot>
    var validCount: nat
    var buffering: bool
    var nextSequenceValid: bool
    var nextSequence: u16
    var counters: Counters

    /** The frame each slot holds. */
    ghost var held: seq<Option<Frame>>

    ghost predicate OwnRegions()
      reads this`held, slots
    {
      && slots.Length == MAX_SLOTS
      && |held| == slotCount <= MAX_SLOTS
      && (forall i :: 0 <= i < slotCount ==> slots[i].pcm + frameCapacity <= storage.Length)
      && (forall i, j :: 0 <= i < j < slotCount ==> slots[i].pcm + frameCapacity <= slots[j].pcm)
    }

    /** The bytes and the descriptor of slot `i` hold the frame `held[i]`. */
    ghost predicate HoldsAt(i: nat)
      requires OwnRegions() && i < slotCount
      reads this`held, slots, storage
    {
      var slot := slots[i];
      && slot.valid == held[i].Some?
      && (slot.valid ==>
            && slot.bytes <= frameCapacity
            && held[i].value == Frame(slot.sequence, slot.meta, storage[slot.pcm..slot.pcm + slot.bytes]))
    }

    ghost predicate Valid()
      reads this`held, slots, storage
    {
      OwnRegions() && forall i :: 0 <= i < slotCount ==> HoldsAt(i)
    }

    ghost function Model(): (b: Buffer)
      reads this
    {
      Buffer(Config(frameCapacity, slotCount, prebuffer), held, validCount, buffering, nextSequenceValid,
             nextSequence, counters)
    }

    constructor (storage: array<byte>, frameCapacity: nat, slots: nat, prebuffer: nat)
      requires (if slots > MAX_SLOTS then MAX_SLOTS else slots) * frameCapacity <= storage.Length
      ensures Valid() && this.storage == storage && fresh(this.slots)
      ensures this.slotCount == if slots > MAX_SLOTS then MAX_SLOTS else slots
      ensures this.frameCapacity == frameCapacity
      ensures this.slotCount != 0 && frameCapacity != 0 ==> 1 <= this.prebuffer <= this.slotCount
      ensures 1 <= prebuffer <= this.slotCount ==> this.prebuffer == prebuffer
      ensures Model() == Empty(Config(frameCapacity, this.slotCount, this.prebuffer))
    {
      this.storage := storage;
      this.frameCapacity := frameCapacity;
      var count := if slots > MAX_SLOTS then MAX_SLOTS else slots;
      slotCount := count;
      if frameCapacity == 0 || count == 0 {
        this.prebuffer := prebuffer;
      } else if prebuffer == 0 {
        this.prebuffer := 1;
      } else if prebuffer > count {
        this.prebuffer := count;
      } else {
        this.prebuffer := prebuffer;
      }
      this.slots := new Slot[MAX_SLOTS](i => Slot(false, NO_META, 0, 0, 0));
      validCount, buffering, nextSequenceValid, nextSequence := 0, true, false, 0;
      counters := NO_COUNTS;
      held := seq(count, _ => None);
      new;
      LayOutSlots();
    }

    /** Gives every slot its own part of the storage. */
    method LayOutSlots()
      requires slots.Length == MAX_SLOTS && |held| == slotCount <= MAX_SLOTS
      requires Offset(slotCount, frameCapacity) <= storage.Length
      requires forall i :: 0 <= i < slotCount ==> held[i].None? && !slots[i].valid
      modifies slots
      ensures Valid()
    {
      for i := 0 to slotCount
        invariant forall j :: 0 <= j < slotCount ==> !slots[j].valid
        invariant forall j :: 0 <= j < i ==> slots[j].pcm + frameCapacity <= Offset(i, frameCapacity)
        invariant forall j, k :: 0 <= j < k < i ==> slots[j].pcm + frameCapacity <= slots[k].pcm
        invariant Offset(i, frameCapacity) <= storage.Length
      {
        OffsetsGrow(i + 1, slotCount, frameCapacity);
        slots[i] := slots[i].(pcm := Offset(i, frameCapacity));
      }
    }

    method Reset()
      requires Valid()
      modifies this, slots
      ensures Valid()
      ensures Model() == Empty(old(Model()).config)
    {
      for i := 0 to slotCount
        modifies slots
        invariant OwnRegions()
        invariant forall j :: 0 <= j < i ==> !slots[j].valid
      {
        slots[i] := slots[i].(valid := false, bytes := 0);
      }
      held := seq(slotCount, _ => None);
      validCount, buffering, nextSequenceValid, nextSequence := 0, true, false, 0;
      counters := NO_COUNTS;
    }

    method KeepWindowFrom(next: u16)
      requires Valid()
      modifies this`validCount, this`counters, this`held, slots
      ensures Valid()
      ensures Model() == KeepWindow(old(Model()), next)
    {
      ghost var b := Model();
      var count := SweepWindow(next);
      validCount := count;
    }

    /** The loop of the window move: empties every slot whose frame is outside the window and counts the rest. */
    method SweepWindow(next: u16) returns (count: nat)
      requires Valid()
      modifies this`counters, this`held, slots
      ensures Valid()
      ensures held == KeptSlots(old(held), next, slotCount) && count == CountHeld(held, slotCount)
      ensures counters == old(counters).(
        discarded := Bump(old(counters).discarded, CountOutside(old(held), slotCount, next, slotCount)))
    {
      ghost var was, kept := held, KeptSlots(held, next, slotCount);
      ghost var lost := 0;
      count := 0;
      for i := 0 to slotCount
        invariant Valid()
        invariant forall j :: 0 <= j < i ==> held[j] == kept[j]
        invariant forall j :: i <= j < slotCount ==> held[j] == was[j]
        invariant count == CountHeld(kept, i)
        invariant lost == CountOutside(was, i, next, slotCount)
        invariant counters == old(counters).(discarded := Bump(old(counters).discarded, lost))
      {
        var inUse := KeepOrClear(i, next);
        if inUse {
          count := count + 1;
        } else if was[i].Some? {
          lost := lost + 1;
        }
      }
      assert held == kept;
    }

    /** One step of the window move: empties slot `i` if its frame is outside the window. */
    method KeepOrClear(i: nat, next: u16) returns (inUse: bool)
      requires Valid() && i < slotCount
      modifies this`counters, this`held, slots
      ensures Valid()
      ensures held == old(held)[i := KeepSlot(old(held)[i], next, slotCount)]
      ensures inUse == held[i].Some?
      ensures counters == if old(held)[i].Some? && !inUse
                          then old(counters).(discarded := Wrap32(old(counters).discarded + 1)) else old(counters)
    {
      assert HoldsAt(i);
      var slot := slots[i];
      if slot.valid {
        var delta := Delta16(slot.sequence, next);
        if delta < 0 || delta >= slotCount {
          counters := counters.(discarded := Wrap32(counters.discarded + 1));
          ClearSlot(i);
          return false;
        }
        return true;
      }
      return false;
    }

    /** Clears one slot: nothing else of the table or of the storage changes. */
    method ClearSlot(index: nat)
      requires Valid() && index < slotCount
      modifies slots, this`held
      ensures Valid()
      ensures held == old(held)[index := None]
    {
      slots[index] := slots[index].(valid := false, bytes := 0);
      held := held[index := None];
      assert forall i :: 0 <= i < slotCount && i != index ==> old(HoldsAt(i)) ==> HoldsAt(i);
    }

    /** Writes a frame into one slot and into that slot's own bytes of the storage. */
    method FillSlot(index: nat, sequence: u16, frame: Frame)
      requires Valid() && index < slotCount && |frame.pcm| <= frameCapacity
      modifies slots, storage, this`held
      ensures Valid()
      ensures held == old(held)[index := Some(frame.(sequence := sequence))]
      ensures forall k :: 0 <= k < storage.Length && !(slots[index].pcm <= k < slots[index].pcm + |frame.pcm|) ==>
                storage[k] == old(storage[k])
    {
      WriteRegion(index, frame.pcm);
      label written:
      slots[index] := Slot(true, frame.meta, sequence, |frame.pcm|, slots[index].pcm);
      held := held[index := Some(frame.(sequence := sequence))];
      assert HoldsAt(index);
      assert forall i :: 0 <= i < slotCount && i != index ==> old@written(HoldsAt(i)) ==> HoldsAt(i);
    }

    /** The copy of a frame's bytes into its slot's part of the storage: no other slot's frame changes. */
    method WriteRegion(index: nat, pcm: seq<byte>)
      requires Valid() && index < slotCount && |pcm| <= frameCapacity
      modifies storage
      ensures OwnRegions() && storage[slots[index].pcm..slots[index].pcm + |pcm|] == pcm
      ensures forall i :: 0 <= i < slotCount && i != index ==> HoldsAt(i)
      ensures forall k :: 0 <= k < storage.Length && !(slots[index].pcm <= k < slots[index].pcm + |pcm|) ==>
                storage[k] == old(storage[k])
    {
      var base := slots[index].pcm;
      for k := 0 to |pcm|
        invariant storage[base..base + k] == pcm[..k]
        invariant forall m :: 0 <= m < storage.Length && !(base <= m < base + k) ==> storage[m] == old(storage[m])
      {
        storage[base + k] := pcm[k];
      }
      forall i | 0 <= i < slotCount && i != index ensures HoldsAt(i) {
        assert old(HoldsAt(i));
        var slot := slots[i];
        if slot.valid {
          assert storage[slot.pcm..slot.pcm + slot.bytes] == old(storage[slot.pcm..slot.pcm + slot.bytes]);
        }
      }
    }

    method Push(frame: Frame) returns (accepted: bool)
      requires Valid()
      modifies this, slots, storage
      ensures Valid()
      ensures (Model(), accepted) == JitterModel.Push(old(Model()), frame)
    {
      if slotCount == 0 || frame.pcm == [] || |frame.pcm| > frameCapacity {
        return false;
      }
      var sequence := frame.sequence;
      if !frame.meta.hasMetadata {
        sequence := if nextSequenceValid then Wrap16(nextSequence + validCount) else 0;
      }
      if !nextSequenceValid {
        nextSequence := sequence;
        nextSequenceValid := true;
      }
      assert Model() == Anchor(old(Model()), sequence);
      var late, realigned := PlaceWindow(sequence);
      if late {
        counters := counters.(late := Wrap32(counters.late + 1));
        return false;
      }
      accepted := StoreFrame(sequence, frame, realigned);
    }

    /** The first half of `push`: moves the window so that it includes `sequence`, unless the frame is late. */
    method PlaceWindow(sequence: u16) returns (late: bool, realigned: bool)
      requires Valid() && slotCount != 0
      modifies this, slots
      ensures Valid()
      ensures late <==> Placed(old(Model()), sequence).None?
      ensures late ==> Model() == old(Model())
      ensures !late ==> (Model(), realigned) == Placed(old(Model()), sequence).value
    {
      hide KeepWindow;
      late, realigned := false, false;
      var delta := Delta16(sequence, nextSequence);
      if delta < 0 {
        if buffering && delta + slotCount > 0 {
          nextSequence := sequence;
          KeepWindowFrom(nextSequence);
        } else {
          late := true;
        }
      } else if delta >= slotCount {
        var keepFrames := if slotCount > prebuffer then slotCount - prebuffer else 1;
        nextSequence := Wrap16(sequence - keepFrames + 1);
        KeepWindowFrom(nextSequence);
        realigned := true;
        counters := counters.(drops := Wrap32(counters.drops + 1));
      }
    }

    /** The second half of `push`: files the frame in its slot, then settles the anchor and the buffering flag. */
    method StoreFrame(sequence: u16, frame: Frame, realigned: bool) returns (accepted: bool)
      requires Valid() && slotCount != 0 && |frame.pcm| <= frameCapacity
      modifies this, slots, storage
      ensures Valid()
      ensures (Model(), accepted) == Store(old(Model()), sequence, frame, realigned)
    {
      ghost var b := Model();
      var index := sequence % slotCount;
      assert HoldsAt(index);
      if slots[index].valid {
        if slots[index].sequence == sequence {
          counters := counters.(duplicates := Wrap32(counters.duplicates + 1));
          return false;
        }
        ClearSlot(index);
        if validCount > 0 {
          validCount := validCount - 1;
        }
        counters := counters.(drops := Wrap32(counters.drops + 1), discarded := Wrap32(counters.discarded + 1));
      }
      assert Model() == MakeRoom(b, sequence);
      FillSlot(index, sequence, frame);
      validCount := validCount + 1;
      ghost var filed := Insert(MakeRoom(b, sequence), sequence, frame);
      assert Model() == filed;
      Settle(realigned);
      accepted := true;
    }

    method Settle(realigned: bool)
      requires Valid() && slotCount != 0
      modifies this`nextSequence, this`buffering
      ensures Model() == Settled(old(Model()), realigned)
    {
      if realigned {
        nextSequence := FindFirstHeld();
        buffering := validCount < prebuffer;
      } else if buffering && validCount >= prebuffer {
        buffering := false;
      }
    }

    /** The scan of the moved window for the first frame that survived the move. */
    method FindFirstHeld() returns (first: u16)
      requires Valid() && slotCount != 0
      ensures first == FirstHeld(Model(), 0)
    {
      for offset := 0 to slotCount
        invariant FirstHeld(Model(), 0) == FirstHeld(Model(), offset)
      {
        var candidate := Wrap16(nextSequence + offset);
        assert HoldsAt(candidate % slotCount);
        var slot := slots[candidate % slotCount];
        if slot.valid && slot.sequence == candidate {
          return candidate;
        }
      }
      return nextSequence;
    }

    /** On `Delivered`, the frame's bytes are at the start of `out` and the rest of `out` is as it was. */
    method Read(out: array?<byte>, capacity: nat, wantsSize: bool) returns (outcome: Outcome)
      requires Valid()
      requires out != null ==> capacity <= out.Length && out != storage
      modifies this, slots, out
      ensures Valid()
      ensures (Model(), outcome) ==
              JitterModel.Read(old(Model()), if out == null then 0 else capacity, wantsSize)
      ensures out != null && outcome.Delivered? ==>
                |outcome.frame.pcm| <= capacity
                && out[..] == outcome.frame.pcm + old(out[..])[|outcome.frame.pcm|..]
      ensures out != null && !outcome.Delivered? ==> out[..] == old(out[..])
    {
      if slotCount == 0 || out == null || capacity == 0 || capacity > frameCapacity {
        return Buffering;
      }
      if !nextSequenceValid || buffering {
        if nextSequenceValid && validCount >= prebuffer {
          buffering := false;
        } else {
          return Buffering;
        }
      }
      outcome := TakeNext(out, capacity, wantsSize);
    }

    /** The part of `read` past the buffering gate. */
    method TakeNext(out: array<byte>, capacity: nat, wantsSize: bool) returns (outcome: Outcome)
      requires Valid() && slotCount != 0 && capacity <= out.Length && out != storage
      modifies this, slots, out
      ensures Valid()
      ensures (Model(), outcome) == Take(old(Model()), capacity, wantsSize)
      ensures outcome.Delivered? ==>
                |outcome.frame.pcm| <= capacity
                && out[..] == outcome.frame.pcm + old(out[..])[|outcome.frame.pcm|..]
      ensures !outcome.Delivered? ==> out[..] == old(out[..])
    {
      var slot := slots[nextSequence % slotCount];
      assert HoldsAt(nextSequence % slotCount);
      if slot.valid && slot.sequence == nextSequence {
        assert Holds(Model(), nextSequence);
        if slot.bytes > capacity || (!wantsSize && slot.bytes != capacity) {
          counters := counters.(drops := Wrap32(counters.drops + 1), discarded := Wrap32(counters.discarded + 1));
          RemoveNext();
          return Missing;
        }
        var frame := CopyOut(slot, out);
        RemoveNext();
        return Delivered(frame);
      }
      assert !Holds(Model(), nextSequence);
      if validCount == 0 {
        return Buffering;
      }
      counters := counters.(missing := Wrap32(counters.missing + 1));
      nextSequence := Wrap16(nextSequence + 1);
      return Missing;
    }

    /** The copy of a slot's bytes to the caller's buffer. */
    method CopyOut(slot: Slot, out: array<byte>) returns (frame: Frame)
      requires Valid() && out != storage
      requires slot.bytes <= out.Length && slot.pcm + slot.bytes <= storage.Length
      modifies out
      ensures Valid() && held == old(held)
      ensures frame == Frame(slot.sequence, slot.meta, storage[slot.pcm..slot.pcm + slot.bytes])
      ensures out[..] == frame.pcm + old(out[..])[slot.bytes..]
    {
      for k := 0 to slot.bytes
        invariant out[..k] == storage[slot.pcm..slot.pcm + k]
        invariant out[k..] == old(out[..])[k..]
      {
        out[k] := storage[slot.pcm + k];
      }
      frame := Frame(slot.sequence, slot.meta, storage[slot.pcm..slot.pcm + slot.bytes]);
      assert forall i :: 0 <= i < slotCount ==> old(HoldsAt(i)) ==> HoldsAt(i);
    }

    method RemoveNext()
      requires Valid() && slotCount != 0
      modifies this`held, this`validCount, this`nextSequence, slots
      ensures Valid()
      ensures Model() == DropNext(old(Model()))
    {
      ClearSlot(nextSequence % slotCount);
      if validCount > 0 {
        validCount := validCount - 1;
      }
      nextSequence := Wrap16(nextSequence + 1);
    }
  }
}
