/**
 The order of playout: while the buffer is not re-buffering, frames leave in strictly increasing sequence
 order (numbers unwrapped), and a non-empty buffer yields a frame within `slotCount` full-capacity reads.
 */
module JitterOrder {
  import opened Machine
  import opened JitterModel
  import opened JitterTheorems

  predicate Playing(b: Buffer) {
    b.anchored && !b.buffering
  }

  /** `Playing` before the run and after each of its events. */
  predicate StaysPlaying(b: Buffer, es: seq<Event>)
    requires |b.slots| == b.config.slotCount
    decreases |es|
  {
    Playing(b) && (es == [] || StaysPlaying(After(b, es[0]), es[1..]))
  }

  /** How far the playout position moves in one event: the signed 16-bit change of `next`. */
  function Advance(b: Buffer, e: Event): int
    requires |b.slots| == b.config.slotCount
  {
    Delta16(After(b, e).next, b.next)
  }

  /** The unwrapped playout positions at which the frames of a run leave, starting from position `at`. */
  function Positions(b: Buffer, es: seq<Event>, at: int): seq<int>
    requires |b.slots| == b.config.slotCount
    decreases |es|
  {
    if es == [] then []
    else (if PlayedBy(b, es[0]) == [] then [] else [at])
         + Positions(After(b, es[0]), es[1..], at + Advance(b, es[0]))
  }

  predicate StrictlyIncreasing(s: seq<int>) {
    forall i, j :: 0 <= i < j < |s| ==> s[i] < s[j]
  }

  /** A push never moves a playing buffer back. */
  lemma PushAdvances(b: Buffer, frame: Frame)
    requires Inv(b) && Playing(b)
    ensures Advance(b, PushEvent(frame)) >= 0
  {
    hide KeepWindow, MakeRoom, FirstHeld;
    if Acceptable(b.config, frame) {
      var s := FiledUnder(b, frame);
      var placed := Placed(b, s);
      assert Anchor(b, s) == b;
      if placed.Some? && placed.value.1 {
        var p := placed.value.0;
        PlacedInv(b, s, ANY_FRAME);
        MovedWindowIsFree(b, s);
        assert Push(b, frame).0.next == FirstHeld(Insert(MakeRoom(p, s), s, frame), 0);
        RealignedStoreAdvances(b.next, p, s, frame);
      }
    }
  }

  /** Filing the frame that moved the window from `next` forward anchors playout ahead of `next`. */
  lemma RealignedStoreAdvances(next: u16, p: Buffer, s: u16, frame: Frame)
    requires Inv(p) && p.anchored && Acceptable(p.config, frame) && !Holds(p, s)
    requires p.next == Wrap16(s - KeepFrames(p.config) + 1) && Delta16(s, next) >= p.config.slotCount
    ensures Delta16(FirstHeld(Insert(MakeRoom(p, s), s, frame), 0), next) >= 0
  {
    hide MakeRoom, FirstHeld;
    RealignedWindow(s, KeepFrames(p.config), p.config.slotCount);
    InsertInv(p, s, frame, ANY_FRAME);
    var full := Insert(MakeRoom(p, s), s, frame);
    SettledInv(full, true);
    var first := FirstHeld(full, 0);
    assert full.next == p.next && full.slots[s % p.config.slotCount].Some?;
    assert FiledAt(full, first % p.config.slotCount) by {
      assert Holds(full, first);
    }
    ForwardMove(next, s, KeepFrames(p.config), first, p.config.slotCount);
  }

  lemma ForwardMove(next: u16, s: u16, keep: nat, first: u16, n: nat)
    requires 1 <= keep <= n <= MAX_SLOTS && Delta16(s, next) >= n
    requires var start := Wrap16(s - keep + 1); 0 <= Delta16(first, start) <= Delta16(s, start)
    ensures Delta16(first, next) >= 0
  {
    RealignedWindow(s, keep, n);
  }

  lemma ReadAdvances(b: Buffer, capacity: nat, wantsSize: bool)
    requires Inv(b) && Playing(b)
    ensures Advance(b, ReadEvent(capacity, wantsSize)) >= 0
    ensures PlayedBy(b, ReadEvent(capacity, wantsSize)) != [] ==>
              Advance(b, ReadEvent(capacity, wantsSize)) == 1
              && PlayedBy(b, ReadEvent(capacity, wantsSize))[0].sequence == b.next
  {
    ReadKeeps(b, capacity, wantsSize, ANY_FRAME);
  }

  lemma StepAdvances(b: Buffer, e: Event, at: int)
    requires Inv(b) && Playing(b) && Wrap16(at) == b.next
    ensures Advance(b, e) >= 0 && Wrap16(at + Advance(b, e)) == After(b, e).next
    ensures |PlayedBy(b, e)| <= 1
    ensures PlayedBy(b, e) != [] ==> Advance(b, e) == 1 && PlayedBy(b, e)[0].sequence == b.next
  {
    hide Push, Read;
    match e {
      case PushEvent(frame) => PushAdvances(b, frame);
      case ReadEvent(capacity, wantsSize) => ReadAdvances(b, capacity, wantsSize);
    }
  }

  /** The positions match the frames played: increasing, from `at` on, one per frame and carrying its number. */
  predicate Ordered(ps: seq<int>, frames: seq<Frame>, at: int) {
    && StrictlyIncreasing(ps)
    && |ps| == |frames|
    && (forall i :: 0 <= i < |ps| ==> ps[i] >= at && frames[i].sequence == Wrap16(ps[i]))
  }

  lemma OrderedPrepend(ps: seq<int>, frames: seq<Frame>, at: int, advance: int, played: seq<Frame>)
    requires advance >= 0 && |played| <= 1 && Ordered(ps, frames, at + advance)
    requires played != [] ==> advance == 1 && played[0].sequence == Wrap16(at)
    ensures Ordered((if played == [] then [] else [at]) + ps, played + frames, at)
  {
  }

  /** Playout order over any run of a playing buffer. */
  lemma {:induction false} PlayoutInOrder(b: Buffer, es: seq<Event>, at: int)
    requires Inv(b) && StaysPlaying(b, es) && Wrap16(at) == b.next
    ensures Ordered(Positions(b, es, at), Played(b, es), at)
    decreases |es|
  {
    hide Push, Read;
    if es != [] {
      StepKeeps(b, es[0], ANY_FRAME);
      StepAdvances(b, es[0], at);
      var b', at' := After(b, es[0]), at + Advance(b, es[0]);
      PlayoutInOrder(b', es[1..], at');
      OrderedPrepend(Positions(b', es[1..], at'), Played(b', es[1..]), at, Advance(b, es[0]), PlayedBy(b, es[0]));
    }
  }

  // ---------- Liveness of playout ----------

  /** The buffer after `k` reads with room for a whole frame. */
  function AfterReads(b: Buffer, k: nat): (b': Buffer)
    requires |b.slots| == b.config.slotCount
    ensures |b'.slots| == b'.config.slotCount
    ensures b'.config == b.config
    decreases k
  {
    if k == 0 then b else AfterReads(Read(b, b.config.frameCapacity, true).0, k - 1)
  }

  function ReadAfter(b: Buffer, k: nat): Outcome
    requires |b.slots| == b.config.slotCount
  {
    Read(AfterReads(b, k), b.config.frameCapacity, true).1
  }

  lemma {:induction false} FrameWithin(b: Buffer, i: nat, distance: nat) returns (k: nat)
    requires Inv(b) && Playing(b) && b.config.frameCapacity > 0
    requires i < |b.slots| && b.slots[i].Some? && Delta16(b.slots[i].value.sequence, b.next) == distance
    ensures k <= distance && ReadAfter(b, k).Delivered?
    ensures forall j :: 0 <= j < k ==> ReadAfter(b, j).Missing?
    decreases distance
  {
    assert FiledAt(b, i);
    CountPositive(b.slots, i, |b.slots|);
    ReadKeeps(b, b.config.frameCapacity, true, ANY_FRAME);
    assert b.(buffering := false) == b;
    if Holds(b, b.next) {
      assert FiledAt(b, b.next % b.config.slotCount);
      k := 0;
    } else {
      assert distance > 0;
      var b' := Read(b, b.config.frameCapacity, true).0;
      WindowStep(b.slots[i].value.sequence, b.next, b.config.slotCount);
      k := FrameWithin(b', i, distance - 1);
      k := k + 1;
      forall j | 0 <= j < k ensures ReadAfter(b, j).Missing? {
        assert j > 0 ==> ReadAfter(b, j) == ReadAfter(b', j - 1);
      }
    }
  }

  /** A playing, non-empty buffer reports at most `slotCount - 1` missing frames before it delivers one. */
  lemma DeliversWithinWindow(b: Buffer) returns (k: nat)
    requires Inv(b) && Playing(b) && b.config.frameCapacity > 0 && b.count > 0
    ensures k < b.config.slotCount && ReadAfter(b, k).Delivered?
    ensures forall j :: 0 <= j < k ==> ReadAfter(b, j).Missing?
  {
    var i := SomeHeld(b.slots, |b.slots|);
    assert FiledAt(b, i);
    k := FrameWithin(b, i, Delta16(b.slots[i].value.sequence, b.next));
  }
}
