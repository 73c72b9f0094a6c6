/**
 The retransmission record of a SIP request (`UdpTransaction` in esphome/components/voip_stack/sip_transport.h and the
 pump in sip_transport.cpp) under a wrapping millisecond clock (RFC 3261 section 17.1.2.2).
 */
module UdpTransaction {
  import opened Machine

  const T1: nat := 500
  const T2: nat := 4000
  const TIMEOUT: nat := 64 * T1

  datatype Record = Record(
    request: seq<byte>,
    ip: u32,
    port: u16,
    next: u32,
    deadline: u32,
    interval: u16,
    retries: byte,
    udp: bool,
    completed: bool)

  const CLEARED := Record([], 0, 0, 0, 0, T1, 0, true, false)

  datatype Event = Quiet | Retransmitted | TimedOut

  /** `time_reached`. */
  predicate TimeReached(now: u32, deadline: u32) {
    Delta32(now, deadline) >= 0
  }

  /** The record that `remember_udp_transaction_` makes; `None` when there is nothing to remember. */
  function Begin(request: seq<byte>, ip: u32, port: u16, udp: bool, now: u32): Option<Record> {
    if request == [] || ip == 0 || port == 0 then None
    else Some(Record(request, ip, port, Wrap32(now + T1), Wrap32(now + TIMEOUT), T1, 0, udp, false))
  }

  /** One pump of the record at `now`. */
  function Pump(r: Record, now: u32): (Record, Event) {
    if r.request == [] || r.ip == 0 || r.port == 0 then (r, Quiet)
    else if TimeReached(now, r.deadline) then (CLEARED, TimedOut)
    else if !TimeReached(now, r.next) then (r, Quiet)
    else if r.completed || !r.udp then (r.(next := r.deadline), Quiet)
    else
      var interval := if Wrap16(r.interval * 2) < T2 then Wrap16(r.interval * 2) else T2;
      var next := Wrap32(now + interval);
      (r.(retries := (r.retries + 1) % 0x100,
          interval := interval,
          next := if TimeReached(next, r.deadline) then r.deadline else next),
       Retransmitted)
  }

  class Transaction {
    var request: seq<byte>
    var ip: u32
    var port: u16
    var next: u32
    var deadline: u32
    var interval: u16
    var retries: byte
    var udp: bool
    var completed: bool

    function Value(): Record
      reads this
    {
      Record(request, ip, port, next, deadline, interval, retries, udp, completed)
    }

    constructor ()
      ensures Value() == CLEARED
    {
      request, ip, port, next, deadline, interval, retries, udp, completed := [], 0, 0, 0, 0, T1, 0, true, false;
    }

    /** `clear`. */
    method Clear()
      modifies this
      ensures Value() == CLEARED
    {
      request, ip, port, next, deadline, interval, retries, udp, completed := [], 0, 0, 0, 0, T1, 0, true, false;
    }

    /** `remember_udp_transaction_`, for the record the method name selects. */
    method Remember(message: seq<byte>, toIp: u32, toPort: u16, overUdp: bool, now: u32)
      modifies this
      ensures var begun := Begin(message, toIp, toPort, overUdp, now);
              Value() == if begun.Some? then begun.value else old(Value())
    {
      if message == [] || toIp == 0 || toPort == 0 {
        return;
      }
      request, ip, port, interval := message, toIp, toPort, T1;
      next := Wrap32(now + interval);
      deadline := Wrap32(now + TIMEOUT);
      retries, udp, completed := 0, overUdp, false;
    }

    /** The pump of one record. */
    method PumpAt(now: u32) returns (event: Event)
      modifies this
      ensures (Value(), event) == Pump(old(Value()), now)
    {
      if request == [] || ip == 0 || port == 0 {
        return Quiet;
      }
      if TimeReached(now, deadline) {
        Clear();
        return TimedOut;
      }
      if !TimeReached(now, next) {
        return Quiet;
      }
      if completed {
        next := deadline;
        return Quiet;
      }
      if !udp {
        next := deadline;
        return Quiet;
      }
      retries := (retries + 1) % 0x100;
      interval := if Wrap16(interval * 2) < T2 then Wrap16(interval * 2) else T2;
      next := Wrap32(now + interval);
      if TimeReached(next, deadline) {
        next := deadline;
      }
      return Retransmitted;
    }
  }

  // ---------- Schedules ----------

  /** A pump `gap` milliseconds after the previous step, or a response that completes the request at once. */
  datatype Step = PumpAfter(gap: nat) | Respond

  /** Gaps a 32-bit signed comparison can order. */
  predicate Timely(steps: seq<Step>) {
    forall i :: 0 <= i < |steps| && steps[i].PumpAfter? ==> steps[i].gap < 0x8000_0000
  }

  /** The record, the milliseconds since it was made, its retransmissions, and the last pump's event. */
  datatype History = History(record: Record, elapsed: nat, sent: nat, event: Event)

  function Advance(h: History, start: u32, step: Step): History {
    match step
    case Respond =>
      h.(record := if h.record.request == [] then h.record else h.record.(completed := true, next := h.record.deadline),
         event := Quiet)
    case PumpAfter(gap) =>
      var p := Pump(h.record, Wrap32(start + (h.elapsed + gap)));
      History(p.0, h.elapsed + gap, h.sent + if p.1.Retransmitted? then 1 else 0, p.1)
  }

  /** The history of a record made at `start`, after `n` steps. */
  function After(first: Record, start: u32, steps: seq<Step>, n: nat): History
    requires n <= |steps|
  {
    if n == 0 then History(first, 0, 0, Quiet) else Advance(After(first, start, steps, n - 1), start, steps[n - 1])
  }

  // ---------- What holds on every schedule ----------

  /** The earliest time, after the start, of the retransmission that follows `k` others. */
  function Earliest(k: nat): nat {
    if k == 0 then 500 else if k == 1 then 1500 else if k == 2 then 3500 else 7500 + 4000 * (k - 3)
  }

  function IntervalAfter(k: nat): nat {
    if k == 0 then 500 else if k == 1 then 1000 else if k == 2 then 2000 else 4000
  }

  /** The record is running: `due` is its next time counted from the start, `k` its retransmissions so far. */
  predicate Running(r: Record, start: u32, due: nat, k: nat) {
    && r.request != [] && r.ip != 0 && r.port != 0
    && r.deadline == Wrap32(start + TIMEOUT) && r.next == Wrap32(start + due)
    && due <= TIMEOUT && (due < TIMEOUT ==> Earliest(k) <= due)
    && k <= 10 && r.retries == k && r.interval == IntervalAfter(k)
  }

  /** On a clock that wraps, times less than half a turn apart compare as they would without wrapping. */
  lemma WrappedCompare(start: u32, a: nat, b: nat)
    requires -0x8000_0000 <= a - b < 0x8000_0000
    ensures TimeReached(Wrap32(start + a), Wrap32(start + b)) <==> a >= b
  {
    var x, y := Wrap32(start + a), Wrap32(start + b);
    var p, q := (start + a) / 0x1_0000_0000, (start + b) / 0x1_0000_0000;
    assert x as int - y as int == (a - b) - (p - q) * 0x1_0000_0000;
    assert p - q == 0 || p - q == 1 || p - q == -1;
  }

  lemma WrappedSum(start: u32, t: nat, interval: nat)
    ensures Wrap32(Wrap32(start + t) + interval) == Wrap32(start + (t + interval))
  {
  }

  /** One pump at `t`: it times out at or after the deadline, retransmits when due, and otherwise waits. */
  lemma PumpRuns(r: Record, start: u32, due: nat, k: nat, t: nat) returns (due': nat, k': nat)
    requires Running(r, start, due, k) && t < TIMEOUT + 0x8000_0000
    ensures var p := Pump(r, Wrap32(start + t));
            if t >= TIMEOUT then p == (CLEARED, TimedOut)
            else
              && Running(p.0, start, due', k') && k' == k + (if p.1.Retransmitted? then 1 else 0) && !p.1.TimedOut?
              && (p.1.Retransmitted? <==> t >= due && r.udp && !r.completed)
              && p.0.udp == r.udp && p.0.completed == r.completed
  {
    hide TimeReached, Wrap32, Earliest, IntervalAfter;
    WrappedCompare(start, t, TIMEOUT);
    due', k' := due, k;
    if t < TIMEOUT {
      WrappedCompare(start, t, due);
      if t >= due {
        if r.completed || !r.udp {
          due' := TIMEOUT;
        } else {
          k' := k + 1;
          due' := if t + IntervalAfter(k') >= TIMEOUT then TIMEOUT else t + IntervalAfter(k');
          Retransmits(r, start, due, k, t);
        }
      }
    }
  }

  lemma Retransmits(r: Record, start: u32, due: nat, k: nat, t: nat)
    requires Running(r, start, due, k) && due <= t < TIMEOUT && r.udp && !r.completed
    ensures var p, after := Pump(r, Wrap32(start + t)), t + IntervalAfter(k + 1);
            && p.1.Retransmitted? && p.0.udp && !p.0.completed
            && Running(p.0, start, if after >= TIMEOUT then TIMEOUT else after, k + 1)
  {
    var interval := IntervalAfter(k + 1);
    Backoff(k, due);
    hide TimeReached, Wrap32, Earliest, IntervalAfter;
    WrappedCompare(start, t, TIMEOUT);
    WrappedCompare(start, t, due);
    WrappedSum(start, t, interval);
    WrappedCompare(start, t + interval, TIMEOUT);
  }

  /** The interval doubles up to T2, and ten retransmissions use up the time there is. */
  lemma Backoff(k: nat, due: nat)
    requires k <= 10 && Earliest(k) <= due < TIMEOUT
    ensures k < 10 && IntervalAfter(k + 1) <= T2 && Earliest(k) + IntervalAfter(k + 1) == Earliest(k + 1)
    ensures IntervalAfter(k + 1) == if Wrap16(IntervalAfter(k) * 2) < T2 then Wrap16(IntervalAfter(k) * 2) else T2
  {
  }

  /** A record that runs until the deadline is pumped, and is clear from then on. */
  predicate Tracks(h: History, start: u32, due: nat) {
    && h.sent <= 10
    && (h.elapsed < TIMEOUT ==> Running(h.record, start, due, h.sent))
    && (h.elapsed >= TIMEOUT ==> h.record == CLEARED)
  }

  lemma AdvanceTracks(h: History, start: u32, due: nat, step: Step) returns (due': nat)
    requires Tracks(h, start, due) && (step.PumpAfter? ==> step.gap < 0x8000_0000)
    ensures Tracks(Advance(h, start, step), start, due')
    ensures var h' := Advance(h, start, step); h'.event.TimedOut? <==> h.elapsed < TIMEOUT <= h'.elapsed
  {
    due' := if step.Respond? then TIMEOUT else due;
    if step.PumpAfter? && h.elapsed < TIMEOUT {
      hide Pump;
      var k';
      due', k' := PumpRuns(h.record, start, due, h.sent, h.elapsed + step.gap);
    }
  }

  /**
   Every schedule with gaps under 2^31 ms: until the deadline has been pumped the record keeps its interval among 500,
   1000, 2000 and 4000, its next time is never past the deadline, and it counts its retransmissions, at most 10; once
   the deadline has been pumped the record is clear. Exactly the first pump at or after 64*T1 reports the timeout.
   */
  lemma {:induction false} EverySchedule(request: seq<byte>, ip: u32, port: u16, udp: bool, start: u32, steps: seq<Step>, n: nat)
    returns (due: nat)
    requires Begin(request, ip, port, udp, start).Some? && Timely(steps) && n <= |steps|
    ensures var first := Begin(request, ip, port, udp, start).value;
            && Tracks(After(first, start, steps, n), start, due)
            && (n > 0 ==> (After(first, start, steps, n).event.TimedOut?
                           <==> After(first, start, steps, n - 1).elapsed < TIMEOUT <= After(first, start, steps, n).elapsed))
  {
    if n == 0 {
      due := T1;
    } else {
      hide Begin, Tracks, Advance;
      due := EverySchedule(request, ip, port, udp, start, steps, n - 1);
      due := AdvanceTracks(After(Begin(request, ip, port, udp, start).value, start, steps, n - 1), start, due, steps[n - 1]);
    }
  }
}
