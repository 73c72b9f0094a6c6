/**
 The simple form of the jitter buffer: a finite map from sequence numbers to frames, with keys in a window of
 `slotCount` consecutive numbers modulo 2^16. For every slot count that divides 2^16 the slot table refines
 it, and for every other slot count the table's collision branch can be reached.
 */
module JitterWindow {
  import opened Machine
  import opened JitterModel
  import opened JitterTheorems

  datatype Window = Window(frames: map<u16, Frame>, next: u16, anchored: bool, buffering: bool)

  /** The map a slot table stands for. */
  ghost function Abs(b: Buffer): Window
    requires 0 < |b.slots| == b.config.slotCount
  {
    Window(FramesOf(b.slots), b.next, b.anchored, b.buffering)
  }

  ghost function FramesOf(slots: seq<Option<Frame>>): map<u16, Frame>
    requires |slots| > 0
  {
    map s: u16 | 0 <= s < 0x1_0000 && slots[s % |slots|].Some? && slots[s % |slots|].value.sequence == s
      :: slots[s % |slots|].value
  }

  ghost function Restrict(frames: map<u16, Frame>, next: u16, n: nat): map<u16, Frame> {
    map s | s in frames && InWindow(s, next, n) :: frames[s]
  }

  // ---------- The map's own operations ----------

  ghost function NumberFor(w: Window, frame: Frame): u16 {
    if frame.meta.hasMetadata then frame.sequence
    else if w.anchored then Wrap16(w.next + |w.frames|)
    else 0
  }

  /** A frame is turned away if it is behind the window and playout has begun (or it is too far behind), or a duplicate. */
  ghost predicate Admits(c: Config, w: Window, frame: Frame) {
    var s := NumberFor(w, frame);
    var delta := if w.anchored then Delta16(s, w.next) else 0;
    && Acceptable(c, frame)
    && (delta >= 0 || (w.buffering && -delta < c.slotCount))
    && s !in w.frames
  }

  /** The window moved so that it includes `s`: back to `s`, forward to end near `s`, or not at all. */
  ghost function MoveWindow(c: Config, w: Window, s: u16): (Window, bool) {
    var delta := Delta16(s, w.next);
    if 0 <= delta < c.slotCount then (w, false)
    else
      var start := if delta < 0 then s else Wrap16(s - KeepFrames(c) + 1);
      (w.(frames := Restrict(w.frames, start, c.slotCount), next := start), delta >= 0)
  }

  /** Filing a frame in the window: after a move forward, playout starts at the first number held. */
  ghost predicate FiledSpec(c: Config, w: Window, s: u16, frame: Frame, forward: bool, w': Window) {
    && w'.anchored
    && w'.frames == w.frames[s := frame.(sequence := s)]
    && (if forward then
          && w'.next in w'.frames
          && (forall q :: q in w'.frames ==> Delta16(w'.next, w.next) <= Delta16(q, w.next))
          && w'.buffering == (|w'.frames| < c.prebuffer)
        else
          w'.next == w.next && w'.buffering == (w.buffering && |w'.frames| < c.prebuffer))
  }

  /** What a push may do to the map: nothing, or move the window and file the frame. */
  ghost predicate PushSpec(c: Config, w: Window, frame: Frame, w': Window, accepted: bool) {
    if !Admits(c, w, frame) then !accepted && w' == w
    else
      var s := NumberFor(w, frame);
      var (moved, forward) := MoveWindow(c, if w.anchored then w else w.(next := s, anchored := true), s);
      accepted && FiledSpec(c, moved, s, frame, forward, w')
  }

  /** What a read does to the map. */
  ghost function ReadSpec(c: Config, w: Window, capacity: nat, wantsSize: bool): (Window, Outcome) {
    if capacity == 0 || capacity > c.frameCapacity || !w.anchored || w.buffering then (w, Buffering)
    else if w.next in w.frames then
      var frame, w' := w.frames[w.next], w.(frames := w.frames - {w.next}, next := Wrap16(w.next + 1));
      if |frame.pcm| == capacity || (wantsSize && |frame.pcm| < capacity) then (w', Delivered(frame))
      else (w', Missing)
    else if w.frames == map[] then (w, Buffering)
    else (w.(next := Wrap16(w.next + 1)), Missing)
  }

  // ---------- The table's size is the map's size ----------

  ghost function NumbersIn(slots: seq<Option<Frame>>, k: nat): set<u16>
    requires k <= |slots|
  {
    if k == 0 then {}
    else NumbersIn(slots, k - 1) + if slots[k - 1].Some? then {slots[k - 1].value.sequence} else {}
  }

  lemma {:induction false} NumbersHeld(b: Buffer, k: nat, s: u16)
    requires Inv(b) && k <= |b.slots|
    ensures s in NumbersIn(b.slots, k) <==> s % b.config.slotCount < k && Holds(b, s)
  {
    if k > 0 {
      NumbersHeld(b, k - 1, s);
      if b.slots[k - 1].Some? {
        assert FiledAt(b, k - 1);
      }
    }
  }

  lemma {:induction false} NumbersAreCounted(b: Buffer, k: nat)
    requires Inv(b) && k <= |b.slots|
    ensures |NumbersIn(b.slots, k)| == CountHeld(b.slots, k)
  {
    if k > 0 {
      NumbersAreCounted(b, k - 1);
      if b.slots[k - 1].Some? {
        assert FiledAt(b, k - 1);
        NumbersHeld(b, k - 1, b.slots[k - 1].value.sequence);
      }
    }
  }

  lemma CountIsSize(b: Buffer)
    requires Inv(b)
    ensures |Abs(b).frames| == b.count
    ensures b.count == 0 <==> Abs(b).frames == map[]
  {
    NumbersAreCounted(b, |b.slots|);
    forall s: u16 ensures s in NumbersIn(b.slots, |b.slots|) <==> s in Abs(b).frames {
      NumbersHeld(b, |b.slots|, s);
    }
    assert Abs(b).frames.Keys == NumbersIn(b.slots, |b.slots|);
    assert |Abs(b).frames| == |Abs(b).frames.Keys|;
  }

  // ---------- Collisions ----------

  /** Two numbers of one window that share a slot are the same number, when the slot count divides 2^16. */
  lemma SameSlotSameNumber(a: u16, b: u16, next: u16, n: nat)
    requires 0 < n <= MAX_SLOTS && 0x1_0000 % n == 0
    requires InWindow(a, next, n) && InWindow(b, next, n) && a % n == b % n
    ensures a == b
  {
    var distance := Delta16(a, next) - Delta16(b, next);
    var turns := (a - b - distance) / 0x1_0000;
    assert a - b == distance + turns * 0x1_0000;
    var t := a / n - b / n - turns * (0x1_0000 / n);
    Multiples(a, b, turns, n);
    assert n * t == distance;
    SmallMultiple(n, t);
  }

  lemma Multiples(a: int, b: int, turns: int, n: nat)
    requires n > 0 && a % n == b % n && 0x1_0000 % n == 0
    ensures n * (a / n - b / n - turns * (0x1_0000 / n)) == a - b - turns * 0x1_0000
  {
    var m := 0x1_0000 / n;
    assert n * m == 0x1_0000;
    assert n * (turns * m) == turns * (n * m);
    assert n * (a / n) == a - a % n && n * (b / n) == b - b % n;
  }

  lemma SmallMultiple(n: int, t: int)
    requires -n < n * t < n
    ensures t == 0
  {
    assert t >= 1 ==> n * t >= n;
    assert t <= -1 ==> n * t <= -n;
  }

  lemma NoCollision(b: Buffer, sequence: u16)
    requires Inv(b) && 0x1_0000 % b.config.slotCount == 0
    requires InWindow(sequence, b.next, b.config.slotCount)
    ensures !Collides(b, sequence)
  {
    var i := sequence % b.config.slotCount;
    if b.slots[i].Some? {
      assert FiledAt(b, i);
      SameSlotSameNumber(b.slots[i].value.sequence, sequence, b.next, b.config.slotCount);
    }
  }

  /** Pushing `frame` takes the branch that evicts a different number from the slot. */
  predicate PushCollides(b: Buffer, frame: Frame)
    requires 0 < |b.slots| == b.config.slotCount
  {
    var s := FiledUnder(b, frame);
    var placed := Placed(Anchor(b, s), s);
    Acceptable(b.config, frame) && placed.Some? && Collides(placed.value.0, s)
  }

  lemma NoPushCollides(b: Buffer, frame: Frame)
    requires Inv(b) && 0x1_0000 % b.config.slotCount == 0
    ensures !PushCollides(b, frame)
  {
    var s := FiledUnder(b, frame);
    AnchorInv(b, s);
    if Placed(Anchor(b, s), s).Some? {
      PlacedInv(Anchor(b, s), s, ANY_FRAME);
      NoCollision(Placed(Anchor(b, s), s).value.0, s);
    }
  }

  ghost predicate CollisionReachable(c: Config)
    requires GoodConfig(c)
  {
    exists es, frame :: |Run(Empty(c), es).slots| > 0 && PushCollides(Run(Empty(c), es), frame)
  }

  /** Which two numbers collide when the slot count does not divide 2^16: the last multiple of it, and 0. */
  lemma CollidingPair(n: nat) returns (last: u16)
    requires 1 <= n <= MAX_SLOTS && 0x1_0000 % n != 0
    ensures last % n == 0 && last != 0 && 0 < Delta16(0, last) < n
  {
    last := 0x1_0000 - 0x1_0000 % n;
    assert last == n * (0x1_0000 / n);
    LastMultiple(n, 0x1_0000 / n, last);
  }

  lemma LastMultiple(n: nat, q: nat, last: nat)
    requires n > 0 && last == n * q
    ensures last % n == 0
  {
    assert n * (q - last / n) == last % n;
    SmallMultiple(n, q - last / n);
  }

  lemma CollisionExample(c: Config) returns (first: Frame, second: Frame)
    requires GoodConfig(c) && c.frameCapacity > 0 && 0x1_0000 % c.slotCount != 0
    ensures var b := Run(Empty(c), [PushEvent(first)]);
            |b.slots| == c.slotCount && b.config == c && PushCollides(b, second)
  {
    var last := CollidingPair(c.slotCount);
    first := Frame(last, Meta(true, false, 0, 0), [0]);
    second := Frame(0, Meta(true, false, 0, 0), [0]);
    var e, b := Empty(c), After(Empty(c), PushEvent(first));
    EmptyInv(c);
    PushKeeps(e, first, first);
    AnchorInv(e, last);
    assert Push(e, first) == Store(Anchor(e, last), last, first, false);
    assert b.next == last && b.anchored && b.slots[0] == Some(first);
    assert Run(e, [PushEvent(first)]) == Run(b, [PushEvent(first)][1..]) == b;
    assert Placed(b, 0) == Some((b, false));
  }

  /** The collision branch of `push` is dead exactly for the slot counts that divide 2^16. */
  lemma CollisionIffNotDividing(c: Config)
    requires GoodConfig(c) && c.frameCapacity > 0
    ensures CollisionReachable(c) <==> 0x1_0000 % c.slotCount != 0
  {
    EmptyInv(c);
    if 0x1_0000 % c.slotCount == 0 {
      forall es, frame | |Run(Empty(c), es).slots| > 0 ensures !PushCollides(Run(Empty(c), es), frame) {
        RunKeeps(Empty(c), es);
        NoPushCollides(Run(Empty(c), es), frame);
      }
    } else {
      var first, second := CollisionExample(c);
      assert PushCollides(Run(Empty(c), [PushEvent(first)]), second);
    }
  }

  // ---------- Refinement ----------

  lemma HeldInWindow(b: Buffer, s: u16)
    requires Inv(b)
    ensures s in Abs(b).frames <==> Holds(b, s)
    ensures s in Abs(b).frames ==>
              InWindow(s, b.next, b.config.slotCount) && Abs(b).frames[s].sequence == s
              && 0 < |Abs(b).frames[s].pcm| <= b.config.frameCapacity
  {
    if Holds(b, s) {
      assert FiledAt(b, s % b.config.slotCount);
    }
  }

  lemma KeepRefines(b: Buffer, next: u16)
    requires Inv(b)
    ensures var b' := KeepWindow(b.(next := next), next);
            Abs(b').frames == Restrict(Abs(b).frames, next, b.config.slotCount)
  {
  }

  lemma StoreRefines(b: Buffer, s: u16, frame: Frame, realigned: bool)
    requires Inv(b) && b.anchored && Acceptable(b.config, frame) && 0x1_0000 % b.config.slotCount == 0
    requires InWindow(s, b.next, b.config.slotCount) && !Holds(b, s)
    ensures var (b', accepted) := Store(b, s, frame, realigned);
            accepted && Inv(b') && FiledSpec(b.config, Abs(b), s, frame, realigned, Abs(b'))
  {
    var b' := Store(b, s, frame, realigned).0;
    NoCollision(b, s);
    var full := Insert(b, s, frame);
    InsertInv(b, s, frame, ANY_FRAME);
    SettledInv(full, realigned);
    CountIsSize(b');
    InsertRefines(b, s, frame);
    assert Abs(b').frames == Abs(full).frames;
    if realigned {
      forall q | q in Abs(b').frames ensures Delta16(b'.next, b.next) <= Delta16(q, b.next) {
        assert full.slots[q % b.config.slotCount].Some?;
      }
    }
  }

  lemma InsertRefines(b: Buffer, s: u16, frame: Frame)
    requires 0 < |b.slots| == b.config.slotCount && b.slots[s % b.config.slotCount].None?
    ensures Abs(Insert(b, s, frame)).frames == Abs(b).frames[s := frame.(sequence := s)]
  {
  }

  /** Moving the window restricts the map. */
  lemma PlacedRefines(b: Buffer, s: u16)
    requires Inv(b) && b.anchored && Placed(b, s).Some?
    ensures var (p, realigned) := Placed(b, s).value;
            (Abs(p), realigned) == MoveWindow(b.config, Abs(b), s)
  {
    KeepRefines(b, Placed(b, s).value.0.next);
  }

  /** For every slot count that divides 2^16, an accepted push on the slot table is a push on the map. */
  lemma AcceptedPushRefines(b: Buffer, frame: Frame)
    requires Inv(b) && 0x1_0000 % b.config.slotCount == 0
    requires Admits(b.config, Abs(b), frame)
    ensures Inv(Push(b, frame).0) && Push(b, frame).0.config == b.config && Push(b, frame).1
    ensures PushSpec(b.config, Abs(b), frame, Abs(Push(b, frame).0), true)
  {
    var s := FiledUnder(b, frame);
    var anchored := Anchor(b, s);
    CountIsSize(b);
    AnchorInv(b, s);
    HeldInWindow(b, s);
    var (p, realigned) := Placed(anchored, s).value;
    PlacedInv(anchored, s, ANY_FRAME);
    PlacedRefines(anchored, s);
    if !InWindow(s, anchored.next, b.config.slotCount) {
      MovedWindowIsFree(anchored, s);
    }
    StoreRefines(p, s, frame, realigned);
    assert Push(b, frame) == Store(p, s, frame, realigned);
  }

  lemma RejectedPushRefines(b: Buffer, frame: Frame)
    requires Inv(b) && !Admits(b.config, Abs(b), frame)
    ensures !Push(b, frame).1 && Abs(Push(b, frame).0) == Abs(b)
  {
    hide FramesOf, KeepWindow, Insert, MakeRoom, Settled;
    CountIsSize(b);
    if Acceptable(b.config, frame) {
      var s := FiledUnder(b, frame);
      AnchorInv(b, s);
      HeldInWindow(b, s);
      if Holds(b, s) {
        assert b.anchored && Placed(b, s) == Some((b, false));
      } else {
        assert b.anchored && Placed(b, s).None?;
      }
    }
  }

  lemma PushRefines(b: Buffer, frame: Frame)
    requires Inv(b) && 0x1_0000 % b.config.slotCount == 0
    ensures var (b', accepted) := Push(b, frame);
            && Inv(b') && b'.config == b.config
            && PushSpec(b.config, Abs(b), frame, Abs(b'), accepted)
            && |Abs(b').frames| == b'.count
  {
    PushKeeps(b, frame, ANY_FRAME);
    CountIsSize(Push(b, frame).0);
    if Admits(b.config, Abs(b), frame) {
      AcceptedPushRefines(b, frame);
    } else {
      RejectedPushRefines(b, frame);
    }
  }

  lemma DropRefines(b: Buffer)
    requires 0 < |b.slots| == b.config.slotCount && Holds(b, b.next)
    ensures Abs(DropNext(b)) == Abs(b).(frames := Abs(b).frames - {b.next}, next := Wrap16(b.next + 1))
  {
    assert FramesOf(b.slots[b.next % |b.slots| := None]) == FramesOf(b.slots) - {b.next};
  }

  /** ... and a read on the slot table is a read on the map. */
  lemma ReadRefines(b: Buffer, capacity: nat, wantsSize: bool)
    requires Inv(b)
    ensures Inv(Read(b, capacity, wantsSize).0)
    ensures (Abs(Read(b, capacity, wantsSize).0), Read(b, capacity, wantsSize).1)
         == ReadSpec(b.config, Abs(b), capacity, wantsSize)
  {
    ReadKeeps(b, capacity, wantsSize, ANY_FRAME);
    CountIsSize(b);
    HeldInWindow(b, b.next);
    if b.anchored && !b.buffering && Holds(b, b.next) {
      assert b.(buffering := false) == b;
      DropRefines(b);
      DropRefines(b.(counters := b.counters.(drops := Wrap32(b.counters.drops + 1),
                                             discarded := Wrap32(b.counters.discarded + 1))));
    }
  }
}
