/**
 What the jitter buffer's operations mean: the invariant of every run, conservation of frames,
 refinement of a finite map from sequence numbers to frames, and the order of playout.
 */
module JitterTheorems {
  import opened Machine
  import opened JitterModel

  // ---------- The invariant ----------

  predicate GoodConfig(c: Config) {
    1 <= c.prebuffer <= c.slotCount <= MAX_SLOTS
  }

  ghost predicate Inv(b: Buffer) {
    && GoodConfig(b.config)
    && |b.slots| == b.config.slotCount
    && b.count == CountHeld(b.slots, |b.slots|)
    && (forall i :: 0 <= i < |b.slots| && b.slots[i].Some? ==> FiledAt(b, i))
    && (!b.anchored ==> b.count == 0)
    && (b.buffering ==> b.count < b.config.prebuffer)
  }

  /** The frame in slot `i` belongs there, fits, and is in the window. */
  ghost predicate FiledAt(b: Buffer, i: nat)
    requires 0 < |b.slots| == b.config.slotCount
    requires i < |b.slots| && b.slots[i].Some?
  {
    var frame := b.slots[i].value;
    && frame.sequence % b.config.slotCount == i
    && 0 < |frame.pcm| <= b.config.frameCapacity
    && InWindow(frame.sequence, b.next, b.config.slotCount)
  }

  // ---------- Counting the held frames ----------

  /** How many of the first `k` slots hold exactly `frame`. */
  ghost function Copies(slots: seq<Option<Frame>>, k: nat, frame: Frame): nat
    requires k <= |slots|
  {
    if k == 0 then 0 else Copies(slots, k - 1, frame) + CopyIn(slots[k - 1], frame)
  }

  ghost function CopyIn(slot: Option<Frame>, frame: Frame): nat {
    if slot == Some(frame) then 1 else 0
  }

  ghost function Held(b: Buffer, frame: Frame): nat {
    Copies(b.slots, |b.slots|, frame)
  }

  lemma {:induction false} SamePrefix(s: seq<Option<Frame>>, t: seq<Option<Frame>>, k: nat, frame: Frame)
    requires k <= |s| && k <= |t|
    requires forall i :: 0 <= i < k ==> s[i] == t[i]
    ensures CountHeld(s, k) == CountHeld(t, k) && Copies(s, k, frame) == Copies(t, k, frame)
  {
    if k > 0 {
      SamePrefix(s, t, k - 1, frame);
    }
  }

  ghost function InUse(slot: Option<Frame>): nat {
    if slot.Some? then 1 else 0
  }

  /** Replacing one slot trades its frame for the new one. */
  lemma {:induction false} ReplaceSlot(s: seq<Option<Frame>>, i: nat, v: Option<Frame>, k: nat, frame: Frame)
    requires i < k <= |s|
    ensures Copies(s[i := v], k, frame) + CopyIn(s[i], frame) == Copies(s, k, frame) + CopyIn(v, frame)
    ensures CountHeld(s[i := v], k) + InUse(s[i]) == CountHeld(s, k) + InUse(v)
  {
    if k - 1 == i {
      SamePrefix(s, s[i := v], i, frame);
    } else {
      ReplaceSlot(s, i, v, k - 1, frame);
    }
  }

  /** Moving the window loses exactly the frames outside it. */
  lemma {:induction false} KeptAreHeld(s: seq<Option<Frame>>, next: u16, n: nat, k: nat, frame: Frame)
    requires k <= |s|
    ensures Copies(KeptSlots(s, next, n), k, frame) <= Copies(s, k, frame)
    ensures CountHeld(KeptSlots(s, next, n), k) + CountOutside(s, k, next, n) == CountHeld(s, k)
  {
    if k > 0 {
      KeptAreHeld(s, next, n, k - 1, frame);
    }
  }

  lemma {:induction false} CountPositive(s: seq<Option<Frame>>, i: nat, k: nat)
    requires i < k <= |s| && s[i].Some?
    ensures CountHeld(s, k) > 0
  {
    if i < k - 1 {
      CountPositive(s, i, k - 1);
    }
  }

  lemma {:induction false} SomeHeld(s: seq<Option<Frame>>, k: nat) returns (i: nat)
    requires k <= |s| && CountHeld(s, k) > 0
    ensures i < k && s[i].Some?
  {
    if s[k - 1].Some? {
      i := k - 1;
    } else {
      i := SomeHeld(s, k - 1);
    }
  }

  lemma {:induction false} BumpIsWrap(c: u32, n: nat)
    ensures Bump(c, n) == Wrap32(c + n)
  {
    if n > 0 {
      BumpIsWrap(c, n - 1);
    }
  }

  lemma BumpTwice(c: u32, m: nat, n: nat)
    ensures Bump(Bump(c, m), n) == Bump(c, m + n)
  {
    BumpIsWrap(c, m);
    BumpIsWrap(Bump(c, m), n);
    BumpIsWrap(c, m + n);
  }

  // ---------- One operation: invariant, and where its frames go ----------

  /** `gained` frames came in and `played` went to playout; all that are gone otherwise were counted as discarded. */
  ghost predicate Accounted(b: Buffer, b': Buffer, gained: nat, played: nat) {
    && b'.count + played <= b.count + gained
    && b'.counters.discarded == Bump(b.counters.discarded, b.count + gained - played - b'.count)
  }

  lemma AccountedTwice(b: Buffer, b': Buffer, b'': Buffer, g: nat, p: nat, g': nat, p': nat)
    requires Accounted(b, b', g, p) && Accounted(b', b'', g', p')
    ensures Accounted(b, b'', g + g', p + p')
  {
    BumpTwice(b.counters.discarded, b.count + g - p - b'.count, b'.count + g' - p' - b''.count);
  }

  lemma WindowStep(q: u16, next: u16, n: nat)
    requires InWindow(q, next, n) && q != next && n <= MAX_SLOTS
    ensures InWindow(q, Wrap16(next + 1), n)
    ensures Delta16(q, Wrap16(next + 1)) == Delta16(q, next) - 1
  {
  }

  lemma WindowFrom(q: u16, next: u16, offset: nat, n: nat)
    requires InWindow(q, next, n) && offset <= Delta16(q, next) && n <= MAX_SLOTS
    ensures Delta16(q, Wrap16(next + offset)) == Delta16(q, next) - offset
    ensures Delta16(q, next) == offset ==> q == Wrap16(next + offset)
    ensures Delta16(Wrap16(next + offset), next) == offset
  {
  }

  lemma KeepWindowInv(b: Buffer, next: u16, frame: Frame)
    requires Inv(b)
    ensures var b' := KeepWindow(b.(next := next, anchored := true), next);
            Inv(b') && Held(b', frame) <= Held(b, frame) && Accounted(b, b', 0, 0)
  {
    var b' := KeepWindow(b.(next := next, anchored := true), next);
    KeptAreHeld(b.slots, next, b.config.slotCount, |b.slots|, frame);
    forall i | 0 <= i < |b'.slots| && b'.slots[i].Some? ensures FiledAt(b', i) {
      assert FiledAt(b, i);
    }
  }

  /** Filing an acceptable in-window frame. */
  lemma InsertInv(b: Buffer, sequence: u16, frame: Frame, some: Frame)
    requires Inv(b) && b.anchored && Acceptable(b.config, frame)
    requires InWindow(sequence, b.next, b.config.slotCount) && !Holds(b, sequence)
    ensures var b' := Insert(MakeRoom(b, sequence), sequence, frame);
            && Inv(b'.(buffering := false)) && b'.count > 0 && Holds(b', sequence)
            && Held(b', some) <= Held(b, some) + CopyIn(Some(frame.(sequence := sequence)), some)
            && Accounted(b, b', 1, 0)
  {
    var n, i := b.config.slotCount, sequence % b.config.slotCount;
    var filed := Some(frame.(sequence := sequence));
    var room := MakeRoom(b, sequence);
    if b.slots[i].Some? {
      CountPositive(b.slots, i, n);
      ReplaceSlot(b.slots, i, None, n, some);
    }
    ReplaceSlot(room.slots, i, filed, n, some);
    var b' := Insert(room, sequence, frame);
    assert Accounted(b, b', 1, 0);
    forall k | 0 <= k < n && b'.slots[k].Some? ensures FiledAt(b', k) {
      assert k != i ==> FiledAt(b, k);
    }
  }

  /** The window can move to the first held frame without losing any. */
  lemma {:induction false} FirstHeldIsLeast(b: Buffer, offset: nat)
    requires 0 < |b.slots| == b.config.slotCount <= MAX_SLOTS && offset <= b.config.slotCount
    requires CountHeld(b.slots, |b.slots|) > 0
    requires forall i :: 0 <= i < |b.slots| && b.slots[i].Some? ==>
               FiledAt(b, i) && Delta16(b.slots[i].value.sequence, b.next) >= offset
    ensures var first := FirstHeld(b, offset);
            && Holds(b, first) && offset <= Delta16(first, b.next)
            && (forall i :: 0 <= i < |b.slots| && b.slots[i].Some? ==>
                  Delta16(first, b.next) <= Delta16(b.slots[i].value.sequence, b.next))
    decreases b.config.slotCount - offset
  {
    var i := SomeHeld(b.slots, |b.slots|);
    assert FiledAt(b, i);
    var here := Wrap16(b.next + offset);
    WindowFrom(b.slots[i].value.sequence, b.next, offset, b.config.slotCount);
    if !Holds(b, here) {
      forall i | 0 <= i < |b.slots| && b.slots[i].Some?
        ensures FiledAt(b, i) && Delta16(b.slots[i].value.sequence, b.next) >= offset + 1
      {
        assert FiledAt(b, i);
        WindowFrom(b.slots[i].value.sequence, b.next, offset, b.config.slotCount);
      }
      FirstHeldIsLeast(b, offset + 1);
    }
  }

  lemma SettledInv(b: Buffer, realigned: bool)
    requires Inv(b.(buffering := false)) && b.anchored && b.count > 0
    ensures var b' := Settled(b, realigned);
            && Inv(b')
            && (realigned ==> Holds(b, b'.next) && forall i :: 0 <= i < |b.slots| && b.slots[i].Some? ==>
                  Delta16(b'.next, b.next) <= Delta16(b.slots[i].value.sequence, b.next))
  {
    var b' := Settled(b, realigned);
    forall i | 0 <= i < |b.slots| && b.slots[i].Some? ensures FiledAt(b, i) {
      assert FiledAt(b.(buffering := false), i);
    }
    if realigned {
      FirstHeldIsLeast(b, 0);
      var off := Delta16(b'.next, b.next);
      assert InWindow(b'.next, b.next, b.config.slotCount) by {
        assert FiledAt(b, b'.next % b.config.slotCount);
      }
      WindowFrom(b'.next, b.next, off, b.config.slotCount);
      forall i | 0 <= i < |b.slots| && b.slots[i].Some? ensures FiledAt(b', i) {
        assert FiledAt(b, i);
        WindowFrom(b.slots[i].value.sequence, b.next, off, b.config.slotCount);
      }
    } else {
      forall i | 0 <= i < |b.slots| && b.slots[i].Some? ensures FiledAt(b', i) {
        assert FiledAt(b, i);
      }
    }
  }

  lemma RealignedWindow(sequence: u16, keep: nat, n: nat)
    requires 1 <= keep <= n <= MAX_SLOTS
    ensures InWindow(sequence, Wrap16(sequence - keep + 1), n)
    ensures Delta16(sequence, Wrap16(sequence - keep + 1)) == keep - 1
  {
  }

  lemma PlacedInv(b: Buffer, sequence: u16, some: Frame)
    requires Inv(b) && b.anchored && Placed(b, sequence).Some?
    ensures var (b', realigned) := Placed(b, sequence).value;
            && Inv(b') && b'.anchored && b'.config == b.config
            && InWindow(sequence, b'.next, b.config.slotCount)
            && Held(b', some) <= Held(b, some) && Accounted(b, b', 0, 0)
  {
    var delta := Delta16(sequence, b.next);
    if delta < 0 {
      KeepWindowInv(b, sequence, some);
      assert b.(next := sequence) == b.(next := sequence, anchored := true);
    } else if delta >= b.config.slotCount {
      var next := Wrap16(sequence - KeepFrames(b.config) + 1);
      KeepWindowInv(b, next, some);
      RealignedWindow(sequence, KeepFrames(b.config), b.config.slotCount);
      assert b.(next := next) == b.(next := next, anchored := true);
    }
  }

  /** Out-of-window and first frames cannot find their own number in the table. */
  lemma MovedWindowIsFree(b: Buffer, sequence: u16)
    requires Inv(b) && b.anchored && Placed(b, sequence).Some?
    requires !InWindow(sequence, b.next, b.config.slotCount)
    ensures !Holds(b, sequence) && !Holds(Placed(b, sequence).value.0, sequence)
  {
    var i := sequence % b.config.slotCount;
    if b.slots[i].Some? {
      assert FiledAt(b, i);
    }
  }

  lemma AnchorInv(b: Buffer, sequence: u16)
    requires Inv(b)
    ensures Inv(Anchor(b, sequence)) && Anchor(b, sequence).slots == b.slots
    ensures !b.anchored ==> Placed(Anchor(b, sequence), sequence) == Some((Anchor(b, sequence), false))
                            && !Holds(Anchor(b, sequence), sequence)
  {
    if !b.anchored {
      forall i | 0 <= i < |b.slots| ensures b.slots[i].None? {
        if b.slots[i].Some? {
          CountPositive(b.slots, i, |b.slots|);
        }
      }
    }
  }

  /** The frame as the buffer files it. */
  function Filed(b: Buffer, frame: Frame): Frame {
    frame.(sequence := FiledUnder(b, frame))
  }

  /** `b'` is `b` up to the counters of things that are not frames in the buffer. */
  predicate OnlyCounters(b: Buffer, b': Buffer) {
    b' == b.(counters := b'.counters) && b'.counters.discarded == b.counters.discarded
    && b'.counters.drops == b.counters.drops && b'.counters.missing == b.counters.missing
  }

  /** Filing a frame in a window that includes it. */
  lemma StoreKeeps(b: Buffer, sequence: u16, frame: Frame, realigned: bool, some: Frame)
    requires Inv(b) && b.anchored && Acceptable(b.config, frame)
    requires InWindow(sequence, b.next, b.config.slotCount) && !Holds(b, sequence)
    ensures var (b', accepted) := Store(b, sequence, frame, realigned);
            && accepted && Inv(b') && b'.anchored && b'.count > 0
            && Held(b', some) <= Held(b, some) + CopyIn(Some(frame.(sequence := sequence)), some)
            && Accounted(b, b', 1, 0)
  {
    InsertInv(b, sequence, frame, some);
    SettledInv(Insert(MakeRoom(b, sequence), sequence, frame), realigned);
  }

  /** One push: the invariant, the fate of every frame, and rejection without any other effect. */
  lemma PushKeeps(b: Buffer, frame: Frame, some: Frame)
    requires Inv(b)
    ensures var (b', accepted) := Push(b, frame);
            && Inv(b')
            && (!accepted ==> OnlyCounters(b, b'))
            && (accepted ==>
                  && b'.anchored && b'.count > 0
                  && Held(b', some) <= Held(b, some) + CopyIn(Some(Filed(b, frame)), some)
                  && Accounted(b, b', 1, 0))
  {
    if Acceptable(b.config, frame) {
      var sequence := FiledUnder(b, frame);
      var anchored := Anchor(b, sequence);
      AnchorInv(b, sequence);
      var placed := Placed(anchored, sequence);
      if placed.Some? {
        var (p, realigned) := placed.value;
        PlacedInv(anchored, sequence, some);
        if !InWindow(sequence, anchored.next, b.config.slotCount) {
          MovedWindowIsFree(anchored, sequence);
        }
        if !Holds(p, sequence) {
          StoreKeeps(p, sequence, frame, realigned, some);
          AccountedTwice(anchored, p, Push(b, frame).0, 0, 0, 1, 0);
        }
      }
    }
  }

  lemma DropNextInv(b: Buffer, some: Frame)
    requires Inv(b) && b.anchored && !b.buffering && Holds(b, b.next)
    ensures var b' := DropNext(b);
            && Inv(b') && b.count > 0 && b'.count == b.count - 1
            && Held(b', some) + CopyIn(b.slots[b.next % b.config.slotCount], some) == Held(b, some)
  {
    var i := b.next % b.config.slotCount;
    var b' := DropNext(b);
    CountPositive(b.slots, i, |b.slots|);
    ReplaceSlot(b.slots, i, None, |b.slots|, some);
    forall k | 0 <= k < |b'.slots| && b'.slots[k].Some? ensures FiledAt(b', k) {
      assert FiledAt(b, k);
      WindowStep(b.slots[k].value.sequence, b.next, b.config.slotCount);
    }
  }

  /** Dropping a frame that does not fit counts it. */
  lemma DropCounted(b: Buffer, some: Frame)
    requires Inv(b) && b.anchored && !b.buffering && Holds(b, b.next)
    ensures var b' := DropNext(b.(counters := b.counters.(drops := Wrap32(b.counters.drops + 1),
                                                          discarded := Wrap32(b.counters.discarded + 1))));
            Inv(b') && Held(b', some) <= Held(b, some) && Accounted(b, b', 0, 0)
  {
    var counted := b.(counters := b.counters.(drops := Wrap32(b.counters.drops + 1),
                                              discarded := Wrap32(b.counters.discarded + 1)));
    assert forall i :: 0 <= i < |b.slots| && b.slots[i].Some? ==> FiledAt(b, i) ==> FiledAt(counted, i);
    DropNextInv(counted, some);
    assert Bump(b.counters.discarded, 1) == Wrap32(Bump(b.counters.discarded, 0) + 1);
  }

  /** One read: the invariant, and what it took out of the buffer. */
  lemma ReadKeeps(b: Buffer, capacity: nat, wantsSize: bool, some: Frame)
    requires Inv(b)
    ensures var (b', outcome) := Read(b, capacity, wantsSize);
            && Inv(b')
            && (outcome.Buffering? ==> b' == b)
            && (outcome.Missing? ==>
                  !b.buffering && b'.next == Wrap16(b.next + 1)
                  && Held(b', some) <= Held(b, some) && Accounted(b, b', 0, 0))
            && (outcome.Delivered? ==>
                  !b.buffering && b'.next == Wrap16(b.next + 1) && outcome.frame.sequence == b.next
                  && Held(b', some) + CopyIn(Some(outcome.frame), some) == Held(b, some)
                  && Accounted(b, b', 0, 1))
  {
    assert !NeedsRepair(b);
    if b.anchored && !b.buffering && 0 < capacity <= b.config.frameCapacity {
      assert b.(buffering := false) == b;
      if Holds(b, b.next) {
        DropNextInv(b, some);
        DropCounted(b, some);
      } else if b.count > 0 {
        var b' := Read(b, capacity, wantsSize).0;
        forall k | 0 <= k < |b'.slots| && b'.slots[k].Some? ensures FiledAt(b', k) {
          assert FiledAt(b, k);
          WindowStep(b.slots[k].value.sequence, b.next, b.config.slotCount);
        }
      }
    }
  }

  // ---------- Runs ----------

  datatype Event = PushEvent(frame: Frame) | ReadEvent(capacity: nat, wantsSize: bool)

  function After(b: Buffer, e: Event): (b': Buffer)
    requires |b.slots| == b.config.slotCount
    ensures |b'.slots| == b'.config.slotCount
  {
    match e
    case PushEvent(frame) => Push(b, frame).0
    case ReadEvent(capacity, wantsSize) => Read(b, capacity, wantsSize).0
  }

  function AcceptedBy(b: Buffer, e: Event): seq<Frame>
    requires |b.slots| == b.config.slotCount
  {
    if e.PushEvent? && Push(b, e.frame).1 then [Filed(b, e.frame)] else []
  }

  function PlayedBy(b: Buffer, e: Event): seq<Frame>
    requires |b.slots| == b.config.slotCount
  {
    if e.ReadEvent? && Read(b, e.capacity, e.wantsSize).1.Delivered?
    then [Read(b, e.capacity, e.wantsSize).1.frame] else []
  }

  function Run(b: Buffer, es: seq<Event>): (b': Buffer)
    requires |b.slots| == b.config.slotCount
    ensures |b'.slots| == b'.config.slotCount
    decreases |es|
  {
    if es == [] then b else Run(After(b, es[0]), es[1..])
  }

  /** The frames accepted in a run, as filed, in order. */
  function Accepted(b: Buffer, es: seq<Event>): seq<Frame>
    requires |b.slots| == b.config.slotCount
    decreases |es|
  {
    if es == [] then [] else AcceptedBy(b, es[0]) + Accepted(After(b, es[0]), es[1..])
  }

  /** The frames handed to playout in a run, in order. */
  function Played(b: Buffer, es: seq<Event>): seq<Frame>
    requires |b.slots| == b.config.slotCount
    decreases |es|
  {
    if es == [] then [] else PlayedBy(b, es[0]) + Played(After(b, es[0]), es[1..])
  }

  lemma EmptyInv(config: Config)
    requires GoodConfig(config)
    ensures Inv(Empty(config))
    ensures forall frame :: Held(Empty(config), frame) == 0
  {
    var b := Empty(config);
    forall frame ensures Held(b, frame) == 0 {
      EmptyHolds(b.slots, |b.slots|, frame);
    }
    EmptyHolds(b.slots, |b.slots|, ANY_FRAME);
  }

  lemma {:induction false} EmptyHolds(slots: seq<Option<Frame>>, k: nat, frame: Frame)
    requires k <= |slots| && forall i :: 0 <= i < |slots| ==> slots[i].None?
    ensures CountHeld(slots, k) == 0 && Copies(slots, k, frame) == 0
  {
    if k > 0 {
      EmptyHolds(slots, k - 1, frame);
    }
  }

  lemma StepKeeps(b: Buffer, e: Event, some: Frame)
    requires Inv(b)
    ensures var b' := After(b, e);
            && Inv(b') && b'.config == b.config
            && multiset(PlayedBy(b, e))[some] + Held(b', some) <= Held(b, some) + multiset(AcceptedBy(b, e))[some]
            && Accounted(b, b', |AcceptedBy(b, e)|, |PlayedBy(b, e)|)
  {
    match e
    case PushEvent(frame) => PushKeeps(b, frame, some);
    case ReadEvent(capacity, wantsSize) => ReadKeeps(b, capacity, wantsSize, some);
  }

  /** Every run keeps the invariant and accounts for every frame. */
  lemma {:induction false} RunKeeps(b: Buffer, es: seq<Event>)
    requires Inv(b)
    ensures Inv(Run(b, es)) && Run(b, es).config == b.config
    ensures Accounted(b, Run(b, es), |Accepted(b, es)|, |Played(b, es)|)
    decreases |es|
  {
    if es == [] {
      assert Accounted(b, b, 0, 0);
    } else {
      StepKeeps(b, es[0], ANY_FRAME);
      var mid := After(b, es[0]);
      RunKeeps(mid, es[1..]);
      var g, p := |AcceptedBy(b, es[0])|, |PlayedBy(b, es[0])|;
      var g', p' := |Accepted(mid, es[1..])|, |Played(mid, es[1..])|;
      AccountedTwice(b, mid, Run(mid, es[1..]), g, p, g', p');
      assert Run(b, es) == Run(mid, es[1..]);
      assert |Accepted(b, es)| == g + g' && |Played(b, es)| == p + p';
    }
  }

  lemma AppendCopies(s: seq<Frame>, t: seq<Frame>, some: Frame)
    ensures multiset(s + t)[some] == multiset(s)[some] + multiset(t)[some]
  {
    assert multiset(s + t) == multiset(s) + multiset(t);
  }

  /** No frame is played or queued more often than it was accepted. */
  lemma {:induction false} RunPlaysOnlyAccepted(b: Buffer, es: seq<Event>, some: Frame)
    requires Inv(b)
    ensures |Run(b, es).slots| == |b.slots|
    ensures multiset(Played(b, es))[some] + Held(Run(b, es), some)
         <= Held(b, some) + multiset(Accepted(b, es))[some]
    decreases |es|
  {
    if es != [] {
      StepKeeps(b, es[0], some);
      var mid := After(b, es[0]);
      RunPlaysOnlyAccepted(mid, es[1..], some);
      AppendCopies(PlayedBy(b, es[0]), Played(mid, es[1..]), some);
      AppendCopies(AcceptedBy(b, es[0]), Accepted(mid, es[1..]), some);
    }
  }

  const ANY_FRAME := Frame(0, Meta(false, false, 0, 0), [])

  /** Conservation since the last reset: accepted = played + discarded + queued, with a 32-bit discard counter. */
  lemma Conservation(config: Config, es: seq<Event>)
    requires GoodConfig(config)
    ensures var b := Run(Empty(config), es);
            var accepted, played := |Accepted(Empty(config), es)|, |Played(Empty(config), es)|;
            accepted >= played + b.count && b.counters.discarded == Wrap32(accepted - played - b.count)
  {
    EmptyInv(config);
    RunKeeps(Empty(config), es);
    BumpIsWrap(0, |Accepted(Empty(config), es)| - |Played(Empty(config), es)| - Run(Empty(config), es).count);
  }

  /** Playout is a sub-multiset of what was accepted: nothing invented, nothing altered, nothing twice. */
  lemma PlayoutIsAccepted(config: Config, es: seq<Event>)
    requires GoodConfig(config)
    ensures multiset(Played(Empty(config), es)) <= multiset(Accepted(Empty(config), es))
  {
    EmptyInv(config);
    forall some ensures multiset(Played(Empty(config), es))[some] <= multiset(Accepted(Empty(config), es))[some] {
      RunPlaysOnlyAccepted(Empty(config), es, some);
    }
  }

  /** Moving the window keeps the count that of the slots. */
  lemma PlacedCounts(b: Buffer, sequence: u16)
    requires Inv(b) && b.config.slotCount > 0
    ensures var placed := Placed(Anchor(b, sequence), sequence);
            placed.Some? ==> placed.value.0.count == CountHeld(placed.value.0.slots, |placed.value.0.slots|)
  {
  }

  /**
   In every run the guards of both decrements hold where they are evaluated: `read` looks at its slot between
   operations, `push` after it has moved the window; and the repair of the buffering flag finds nothing to do.
   */
  lemma GuardsAlwaysTaken(config: Config, es: seq<Event>, sequence: u16)
    requires GoodConfig(config)
    ensures var b := Run(Empty(config), es);
            && |b.slots| == b.config.slotCount == config.slotCount
            && (b.slots[b.next % config.slotCount].Some? ==> b.count > 0)
            && !NeedsRepair(b)
            && var placed := Placed(Anchor(b, sequence), sequence);
               placed.Some? && placed.value.0.slots[sequence % config.slotCount].Some? ==> placed.value.0.count > 0
  {
    EmptyInv(config);
    RunKeeps(Empty(config), es);
    var b := Run(Empty(config), es);
    if b.slots[b.next % config.slotCount].Some? {
      CountPositive(b.slots, b.next % config.slotCount, |b.slots|);
    }
    PlacedCounts(b, sequence);
    var placed := Placed(Anchor(b, sequence), sequence);
    if placed.Some? && placed.value.0.slots[sequence % config.slotCount].Some? {
      CountPositive(placed.value.0.slots, sequence % config.slotCount, |placed.value.0.slots|);
    }
  }
}
