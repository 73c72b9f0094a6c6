/**
 The value of an RTP jitter buffer and what one operation does to it, slot by slot, as
 esphome/components/voip_stack/rtp_jitter_buffer.h does it. The class `JitterBuffer.RtpJitterBuffer`
 is proved to compute these functions; module `JitterTheorems` proves what they mean.
 */
module JitterModel {
  import opened Machine

  const MAX_SLOTS: nat := 16

  datatype Meta = Meta(hasMetadata: bool, sourceChanged: bool, formatPacked: u32, timestamp: u32)

  /** A datagram: its sequence number, its metadata and its PCM bytes. A null or zero-sized payload is `[]`. */
  datatype Frame = Frame(sequence: u16, meta: Meta, pcm: seq<byte>)

  datatype Counters = Counters(drops: u32, discarded: u32, late: u32, missing: u32, duplicates: u32)

  const NO_COUNTS := Counters(0, 0, 0, 0, 0)

  datatype Config = Config(frameCapacity: nat, slotCount: nat, prebuffer: nat)

  datatype Buffer = Buffer(
    config: Config,
    slots: seq<Option<Frame>>,
    count: nat,
    buffering: bool,
    anchored: bool,
    next: u16,
    counters: Counters)

  datatype Outcome = Delivered(frame: Frame) | Buffering | Missing

  /** Number of slots in use among the first `k`. */
  function CountHeld(slots: seq<Option<Frame>>, k: nat): (n: nat)
    requires k <= |slots|
    ensures n <= k
  {
    if k == 0 then 0 else CountHeld(slots, k - 1) + if slots[k - 1].Some? then 1 else 0
  }

  predicate InWindow(sequence: u16, next: u16, slotCount: nat) {
    0 <= Delta16(sequence, next) < slotCount
  }

  /** Number of slots among the first `k` whose frame is outside the window from `next` on. */
  function CountOutside(slots: seq<Option<Frame>>, k: nat, next: u16, slotCount: nat): (n: nat)
    requires k <= |slots|
    ensures n <= k
  {
    if k == 0 then 0
    else
      CountOutside(slots, k - 1, next, slotCount)
      + if slots[k - 1].Some? && !InWindow(slots[k - 1].value.sequence, next, slotCount) then 1 else 0
  }

  /** A 32-bit counter after `n` increments. */
  function Bump(counter: u32, n: nat): u32 {
    if n == 0 then counter else Wrap32(Bump(counter, n - 1) + 1)
  }

  function KeepSlot(slot: Option<Frame>, next: u16, slotCount: nat): Option<Frame> {
    if slot.Some? && InWindow(slot.value.sequence, next, slotCount) then slot else None
  }

  function KeptSlots(slots: seq<Option<Frame>>, next: u16, slotCount: nat): (kept: seq<Option<Frame>>)
    ensures |kept| == |slots|
    ensures forall i :: 0 <= i < |slots| ==> kept[i] == KeepSlot(slots[i], next, slotCount)
  {
    seq(|slots|, i requires 0 <= i < |slots| => KeepSlot(slots[i], next, slotCount))
  }

  function KeepWindow(b: Buffer, next: u16): (b': Buffer)
    ensures b' == b.(slots := b'.slots, count := b'.count, counters := b'.counters) && |b'.slots| == |b.slots|
  {
    var kept := KeptSlots(b.slots, next, b.config.slotCount);
    b.(slots := kept,
       count := CountHeld(kept, |kept|),
       counters := b.counters.(discarded :=
         Bump(b.counters.discarded, CountOutside(b.slots, |b.slots|, next, b.config.slotCount))))
  }

  /** The value a freshly reset buffer has. */
  function Empty(config: Config): Buffer {
    Buffer(config, seq(config.slotCount, _ => None), 0, true, false, 0, NO_COUNTS)
  }

  /** The sequence number a frame is filed under: its own, or the end of the queue if it carries none. */
  function FiledUnder(b: Buffer, frame: Frame): u16 {
    if frame.meta.hasMetadata then frame.sequence
    else if b.anchored then Wrap16(b.next + b.count)
    else 0
  }

  function KeepFrames(config: Config): nat {
    if config.slotCount > config.prebuffer then config.slotCount - config.prebuffer else 1
  }

  /** Whether the slot for `sequence` holds the frame of that number. */
  predicate Holds(b: Buffer, sequence: u16)
    requires 0 < |b.slots| == b.config.slotCount
  {
    var slot := b.slots[sequence % b.config.slotCount];
    slot.Some? && slot.value.sequence == sequence
  }

  /** Whether filing `sequence` would find its slot taken by another sequence number. */
  predicate Collides(b: Buffer, sequence: u16)
    requires 0 < |b.slots| == b.config.slotCount
  {
    b.slots[sequence % b.config.slotCount].Some? && !Holds(b, sequence)
  }

  /** The first held sequence number at or after `next + offset` in the window; `next` if there is none. */
  function FirstHeld(b: Buffer, offset: nat): u16
    requires 0 < |b.slots| == b.config.slotCount
    requires offset <= b.config.slotCount
    decreases b.config.slotCount - offset
  {
    if offset == b.config.slotCount then b.next
    else if Holds(b, Wrap16(b.next + offset)) then Wrap16(b.next + offset)
    else FirstHeld(b, offset + 1)
  }

  function MakeRoom(b: Buffer, sequence: u16): (b': Buffer)
    requires 0 < |b.slots| == b.config.slotCount
    ensures b' == b.(slots := b'.slots, count := b'.count, counters := b'.counters) && |b'.slots| == |b.slots|
  {
    if Collides(b, sequence) then
      b.(slots := b.slots[sequence % b.config.slotCount := None],
         count := if b.count > 0 then b.count - 1 else b.count,
         counters := b.counters.(drops := Wrap32(b.counters.drops + 1),
                                 discarded := Wrap32(b.counters.discarded + 1)))
    else b
  }

  function Insert(b: Buffer, sequence: u16, frame: Frame): Buffer
    requires 0 < |b.slots| == b.config.slotCount
  {
    b.(slots := b.slots[sequence % b.config.slotCount := Some(frame.(sequence := sequence))],
       count := b.count + 1)
  }

  function Store(b: Buffer, sequence: u16, frame: Frame, realigned: bool): (r: (Buffer, bool))
    requires 0 < |b.slots| == b.config.slotCount
    ensures r.0.config == b.config && |r.0.slots| == |b.slots|
  {
    if Holds(b, sequence) then
      (b.(counters := b.counters.(duplicates := Wrap32(b.counters.duplicates + 1))), false)
    else
      (Settled(Insert(MakeRoom(b, sequence), sequence, frame), realigned), true)
  }

  function Settled(b: Buffer, realigned: bool): Buffer
    requires 0 < |b.slots| == b.config.slotCount
  {
    if realigned then b.(next := FirstHeld(b, 0), buffering := b.count < b.config.prebuffer)
    else b.(buffering := b.buffering && b.count < b.config.prebuffer)
  }

  predicate Acceptable(config: Config, frame: Frame) {
    config.slotCount != 0 && 0 < |frame.pcm| <= config.frameCapacity
  }

  /** The state in which `Store` files the frame, and whether the window was moved forward; `None` for a late frame. */
  function Placed(b: Buffer, sequence: u16): (r: Option<(Buffer, bool)>)
    ensures r.Some? ==> r.value.0.config == b.config && |r.value.0.slots| == |b.slots|
  {
    var delta := Delta16(sequence, b.next);
    if delta < 0 then
      if b.buffering && delta + b.config.slotCount > 0 then
        Some((KeepWindow(b.(next := sequence), sequence), false))
      else None
    else if delta >= b.config.slotCount then
      var next := Wrap16(sequence - KeepFrames(b.config) + 1);
      var kept := KeepWindow(b.(next := next), next);
      Some((kept.(counters := kept.counters.(drops := Wrap32(kept.counters.drops + 1))), true))
    else Some((b, false))
  }

  function Anchor(b: Buffer, sequence: u16): Buffer {
    if b.anchored then b else b.(next := sequence, anchored := true)
  }

  function Push(b: Buffer, frame: Frame): (r: (Buffer, bool))
    requires |b.slots| == b.config.slotCount
    ensures r.0.config == b.config && |r.0.slots| == |b.slots|
  {
    if !Acceptable(b.config, frame) then (b, false)
    else
      var sequence := FiledUnder(b, frame);
      var anchored := Anchor(b, sequence);
      match Placed(anchored, sequence)
      case None => (anchored.(counters := anchored.counters.(late := Wrap32(anchored.counters.late + 1))), false)
      case Some((placed, realigned)) => Store(placed, sequence, frame, realigned)
  }

  function DropNext(b: Buffer): Buffer
    requires 0 < |b.slots| == b.config.slotCount
  {
    b.(slots := b.slots[b.next % b.config.slotCount := None],
       count := if b.count > 0 then b.count - 1 else b.count,
       next := Wrap16(b.next + 1))
  }

  /** Playout may start although the buffering flag is still up: the repair at the top of `read`. */
  predicate NeedsRepair(b: Buffer) {
    b.anchored && b.buffering && b.count >= b.config.prebuffer
  }

  /** `capacity` is the room at the destination (0 for none); `wantsSize` says that the caller asked for the size. */
  function Read(b: Buffer, capacity: nat, wantsSize: bool): (r: (Buffer, Outcome))
    requires |b.slots| == b.config.slotCount
    ensures r.0.config == b.config && |r.0.slots| == |b.slots|
  {
    if b.config.slotCount == 0 || capacity == 0 || capacity > b.config.frameCapacity then (b, Buffering)
    else if !b.anchored || (b.buffering && !NeedsRepair(b)) then (b, Buffering)
    else
      Take(b.(buffering := false), capacity, wantsSize)
  }

  /** `Read` past the buffering gate. */
  function Take(b: Buffer, capacity: nat, wantsSize: bool): (Buffer, Outcome)
    requires 0 < |b.slots| == b.config.slotCount
  {
    if Holds(b, b.next) then
      var frame := b.slots[b.next % b.config.slotCount].value;
      if |frame.pcm| > capacity || (!wantsSize && |frame.pcm| != capacity) then
        (DropNext(b.(counters := b.counters.(drops := Wrap32(b.counters.drops + 1),
                                             discarded := Wrap32(b.counters.discarded + 1)))), Missing)
      else (DropNext(b), Delivered(frame))
    else if b.count == 0 then (b, Buffering)
    else
      (b.(counters := b.counters.(missing := Wrap32(b.counters.missing + 1)), next := Wrap16(b.next + 1)), Missing)
  }
}
