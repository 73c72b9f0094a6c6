/**
 Framing of SIP messages in a TCP stream: `sip_content_length` (esphome/components/voip_stack/sip_message.cpp) and the
 receive loop of `handle_sip_stream_` (esphome/components/voip_stack/sip_transport.cpp), RFC 3261 section 18.3.
 A received byte is a `char`.
 */
module SipFraming {
  import opened Machine

  const MAX_BODY: nat := 4096
  const MAX_BUFFER: nat := 8192
  const CRLF: string := "\r\n"
  const BLANK: string := "\r\n\r\n"

  predicate OccursAt(s: string, needle: string, at: nat) {
    at + |needle| <= |s| && s[at..at + |needle|] == needle
  }

  /** `std::string::find`: the first occurrence at or after `from`. */
  function Find(s: string, needle: string, from: nat): (r: Option<nat>)
    ensures r.Some? ==> from <= r.value && OccursAt(s, needle, r.value)
    ensures r.Some? ==> forall at: nat :: from <= at < r.value ==> !OccursAt(s, needle, at)
    ensures r.None? ==> forall at: nat :: from <= at ==> !OccursAt(s, needle, at)
    decreases |s| - from
  {
    if from + |needle| > |s| then None
    else if OccursAt(s, needle, from) then Some(from)
    else if from == |s| then None
    else Find(s, needle, from + 1)
  }

  lemma OccursHas(s: string, needle: string, at: nat, k: nat)
    requires k < |needle|
    ensures OccursAt(s, needle, at) ==> at + k < |s| && s[at + k] == needle[k]
  {
    if OccursAt(s, needle, at) {
      assert s[at..at + |needle|][k] == s[at + k];
    }
  }

  predicate IsBlank(c: char) {
    c == ' ' || c == '\t' || c == '\r' || c == '\n'
  }

  /** `trim_copy`. */
  function Trim(s: string): string
    decreases |s|
  {
    if s == [] then s
    else if IsBlank(s[0]) then Trim(s[1..])
    else if IsBlank(s[|s| - 1]) then Trim(s[..|s| - 1])
    else s
  }

  /** `std::tolower` of an ASCII letter. */
  function Lower(c: char): char {
    if 'A' <= c <= 'Z' then (c as int + 32) as char else c
  }

  function LowerAll(s: string): (r: string)
    ensures |r| == |s| && forall i :: 0 <= i < |s| ==> r[i] == Lower(s[i])
  {
    seq(|s|, i requires 0 <= i < |s| => Lower(s[i]))
  }

  predicate IsDigit(c: char) {
    '0' <= c <= '9'
  }

  /** The decimal number that the first `n` characters are, if they are digits and it is at most 8192. */
  function Number(s: string, n: nat): (r: Option<nat>)
    requires n <= |s|
    ensures r.Some? ==> r.value <= MAX_BUFFER
  {
    if n == 0 then Some(0)
    else
      var front := Number(s, n - 1);
      if front.None? || !IsDigit(s[n - 1]) then None
      else
        var digit := s[n - 1] as int - '0' as int;
        if front.value > (MAX_BUFFER - digit) / 10 then None else Some(front.value * 10 + digit)
  }

  // ---------- Content-Length ----------

  datatype LineLength = Other | Bad | Length(value: nat)

  /** What one header line says about the body's length. */
  function ReadLine(line: string): LineLength {
    var colon := Find(line, ":", 0);
    if colon.None? then Other
    else
      var name := Trim(LowerAll(line[..colon.value]));
      if name != "content-length" && name != "l" then Other
      else
        var value := Trim(line[colon.value + 1..]);
        if value == [] || Number(value, |value|).None? then Bad else Length(Number(value, |value|).value)
  }

  function LineEnd(headers: string, at: nat): (end: nat)
    requires at <= |headers|
    ensures at <= end <= |headers|
  {
    match Find(headers, CRLF, at)
    case Some(end) => end
    case None => |headers|
  }

  /** Reads header lines from `at` on; `seen` is the length found so far. `None` for a bad or repeated length. */
  function LengthFrom(headers: string, at: nat, seen: Option<nat>): Option<Option<nat>>
    requires at <= |headers|
    decreases |headers| - at
  {
    if at == |headers| then Some(seen)
    else
      var end := LineEnd(headers, at);
      var line := ReadLine(headers[at..end]);
      if line.Bad? || (line.Length? && seen.Some?) then None
      else
        var now := if line.Length? then Some(line.value) else seen;
        if end == |headers| then Some(now) else LengthFrom(headers, end + 2, now)
  }

  /** The declared length of the body: 0 when no header line declares one. */
  function ContentLength(headers: string): Option<nat> {
    var r := LengthFrom(headers, 0, None);
    if r.None? then None else if r.value.None? then Some(0) else Some(r.value.value)
  }

  // ---------- Framing ----------

  datatype Framing = NeedMore | Message(total: nat) | Reject

  /** What the receive loop makes of the front of the buffer. */
  function Frame(buffer: string): (r: Framing)
    ensures r.Message? ==> 4 <= r.total <= |buffer| && r.total <= MAX_BUFFER
  {
    var sep := Find(buffer, BLANK, 0);
    if sep.None? then NeedMore
    else
      var length := ContentLength(buffer[..sep.value]);
      if length.None? || length.value > MAX_BODY || sep.value + 4 + length.value > MAX_BUFFER then Reject
      else if |buffer| < sep.value + 4 + length.value then NeedMore
      else Message(sep.value + 4 + length.value)
  }

  /** Where the header lines end: at the blank line, or at the end of a message that has none. */
  function HeaderEnd(msg: string): (end: nat)
    ensures end <= |msg|
  {
    match Find(msg, BLANK, 0)
    case Some(sep) => sep
    case None => |msg|
  }

  /** The messages taken from a buffer, what is left of it, and whether the stream was rejected. */
  datatype Drained = Drained(messages: seq<string>, rest: string, rejected: bool)

  function Drain(buffer: string): Drained
    decreases |buffer|
  {
    match Frame(buffer)
    case NeedMore => Drained([], buffer, false)
    case Reject => Drained([], buffer, true)
    case Message(total) =>
      var more := Drain(buffer[total..]);
      Drained([buffer[..total]] + more.messages, more.rest, more.rejected)
  }

  /** One wake-up of the receiver: all bytes received are appended, then messages are taken. */
  function Receive(s: Drained, batch: string): Drained {
    if s.rejected then s
    else if |s.rest + batch| > MAX_BUFFER then s.(rejected := true)
    else
      var d := Drain(s.rest + batch);
      Drained(s.messages + d.messages, d.rest, d.rejected)
  }

  const START := Drained([], "", false)

  function Feed(batches: seq<string>, n: nat): Drained
    requires n <= |batches|
  {
    if n == 0 then START else Receive(Feed(batches, n - 1), batches[n - 1])
  }

  /** All bytes of the first `n` batches. */
  function Stream(batches: seq<string>, n: nat): string
    requires n <= |batches|
  {
    if n == 0 then "" else Stream(batches, n - 1) + batches[n - 1]
  }

  // ---------- The receiver ----------

  method Scan(s: string, needle: string, from: nat) returns (r: Option<nat>)
    ensures r == Find(s, needle, from)
  {
    var at := from;
    while at + |needle| <= |s|
      invariant from <= at
      invariant Find(s, needle, from) == Find(s, needle, at)
      decreases |s| - at
    {
      if s[at..at + |needle|] == needle {
        return Some(at);
      }
      at := at + 1;
    }
    return None;
  }

  method ReadNumber(value: string) returns (r: Option<nat>)
    ensures r == Number(value, |value|)
  {
    var parsed := 0;
    for i := 0 to |value|
      invariant Number(value, i) == Some(parsed)
    {
      if !IsDigit(value[i]) {
        NumberFails(value, i + 1, |value|);
        return None;
      }
      var digit := value[i] as int - '0' as int;
      if parsed > (MAX_BUFFER - digit) / 10 {
        NumberFails(value, i + 1, |value|);
        return None;
      }
      parsed := parsed * 10 + digit;
    }
    return Some(parsed);
  }

  lemma {:induction false} NumberFails(s: string, m: nat, n: nat)
    requires m <= n <= |s| && Number(s, m).None?
    ensures Number(s, n).None?
    decreases n
  {
    if m < n {
      NumberFails(s, m, n - 1);
    }
  }

  /** Two line ends do not overlap. */
  lemma NoBlankStraddles(msg: string, sep: nat, end: nat)
    requires OccursAt(msg, BLANK, sep)
    ensures OccursAt(msg, CRLF, end) && end < sep ==> end + 2 <= sep
  {
    OccursHas(msg, CRLF, end, 1);
    OccursHas(msg, BLANK, sep, 0);
    hide OccursAt;
  }

  lemma SameLineEnds(msg: string, sep: nat, i: nat)
    requires i + 2 <= sep <= |msg|
    ensures OccursAt(msg, CRLF, i) <==> OccursAt(msg[..sep], CRLF, i)
  {
    assert msg[i..i + 2] == msg[..sep][i..i + 2];
  }

  /** Up to the end of the headers, lines end where they end in the headers alone. */
  lemma LineEndsInMessage(msg: string, sep: nat, at: nat)
    requires at <= sep <= |msg| && (sep == |msg| || OccursAt(msg, BLANK, sep))
    ensures var found := Find(msg, CRLF, at);
            var end := if found.Some? && found.value < sep then found.value else sep;
            end == LineEnd(msg[..sep], at) && (end == sep || end + 2 <= sep)
  {
    if sep == |msg| {
      assert msg[..sep] == msg;
    } else {
      LineEndsAtBlank(msg, sep, at);
    }
  }

  lemma LineEndsAtBlank(msg: string, sep: nat, at: nat)
    requires at <= sep && OccursAt(msg, BLANK, sep)
    ensures var end := Find(msg, CRLF, at); end.Some? && end.value <= sep && end.value == LineEnd(msg[..sep], at)
    ensures var end := Find(msg, CRLF, at); end.value == sep || end.value + 2 <= sep
  {
    assert OccursAt(msg, CRLF, sep) by {
      assert msg[sep..sep + 2] == msg[sep..sep + 4][..2];
    }
    var end := Find(msg, CRLF, at).value;
    NoBlankStraddles(msg, sep, end);
    var inner := Find(msg[..sep], CRLF, at);
    if end < sep {
      SameLineEnds(msg, sep, end);
    }
    if inner.Some? {
      assert inner.value + 2 <= sep;
      SameLineEnds(msg, sep, inner.value);
    }
    hide OccursAt;
  }

  /** One header line, as a step along the headers. */
  lemma LengthStep(headers: string, at: nat, seen: Option<nat>)
    requires at < |headers|
    ensures var end := LineEnd(headers, at);
            var line := ReadLine(headers[at..end]);
            var now := if line.Length? then Some(line.value) else seen;
            LengthFrom(headers, at, seen)
            == if line.Bad? || (line.Length? && seen.Some?) then None
               else if end == |headers| then Some(now)
               else LengthFrom(headers, end + 2, now)
  {
  }

  /** `sip_content_length`. */
  method SipContentLength(msg: string) returns (r: Option<nat>)
    ensures r == ContentLength(msg[..HeaderEnd(msg)])
  {
    var blank := Scan(msg, BLANK, 0);
    var headerEnd := if blank.Some? then blank.value else |msg|;
    hide ContentLength, OccursAt;
    r := LengthInHeaders(msg, headerEnd);
  }

  /** Its loop over the header lines. */
  method LengthInHeaders(msg: string, sep: nat) returns (r: Option<nat>)
    requires sep <= |msg| && (sep == |msg| || OccursAt(msg, BLANK, sep))
    ensures r == ContentLength(msg[..sep])
  {
    hide *;
    ghost var headers := msg[..sep];
    ContentLengthIs(headers);
    LengthEnds(headers);
    var pos, seen: Option<nat> := 0, None;
    while pos < sep
      invariant pos <= sep
      invariant LengthFrom(headers, 0, None) == LengthFrom(headers, pos, seen)
      decreases sep - pos
    {
      LengthStep(headers, pos, seen);
      var line, end := ReadLineAt(msg, sep, pos);
      if line.Bad? || (line.Length? && seen.Some?) {
        return None;
      }
      if line.Length? {
        seen := Some(line.value);
      }
      if end >= sep {
        break;
      }
      pos := end + 2;
    }
    return Some(if seen.Some? then seen.value else 0);
  }

  lemma ContentLengthIs(headers: string)
    ensures var r := LengthFrom(headers, 0, None);
            ContentLength(headers) == if r.None? then None else if r.value.None? then Some(0) else Some(r.value.value)
  {
    hide LengthFrom;
  }

  /** The header line at `pos`, and where it ends. */
  method ReadLineAt(msg: string, sep: nat, pos: nat) returns (line: LineLength, end: nat)
    requires pos < sep <= |msg| && (sep == |msg| || OccursAt(msg, BLANK, sep))
    ensures end == LineEnd(msg[..sep], pos) && line == ReadLine(msg[..sep][pos..end])
    ensures end == sep || end + 2 <= sep
  {
    hide *;
    LineEndsInMessage(msg, sep, pos);
    var found := Scan(msg, CRLF, pos);
    end := sep;
    if found.Some? && found.value < sep {
      end := found.value;
    }
    assert msg[pos..end] == msg[..sep][pos..end];
    line := ReadHeaderLine(msg[pos..end]);
  }

  lemma LengthEnds(headers: string)
    ensures forall seen :: LengthFrom(headers, |headers|, seen) == Some(seen)
  {
  }

  method ReadHeaderLine(line: string) returns (r: LineLength)
    ensures r == ReadLine(line)
  {
    var colon := Scan(line, ":", 0);
    if colon.None? {
      return Other;
    }
    var name := Trim(LowerAll(line[..colon.value]));
    if name != "content-length" && name != "l" {
      return Other;
    }
    var value := Trim(line[colon.value + 1..]);
    if value == [] {
      return Bad;
    }
    var number := ReadNumber(value);
    return if number.None? then Bad else Length(number.value);
  }

  lemma DrainStep(buffer: string)
    ensures Drain(buffer) ==
            match Frame(buffer)
            case NeedMore => Drained([], buffer, false)
            case Reject => Drained([], buffer, true)
            case Message(total) =>
              var more := Drain(buffer[total..]);
              Drained([buffer[..total]] + more.messages, more.rest, more.rejected)
  {
    hide Frame;
  }

  lemma ReceiveIs(s: Drained, batch: string)
    requires !s.rejected
    ensures var d := Drain(s.rest + batch);
            Receive(s, batch) == if |s.rest + batch| > MAX_BUFFER then s.(rejected := true)
                                 else Drained(s.messages + d.messages, d.rest, d.rejected)
  {
    hide Drain;
  }

  class SipTcpFlow {
    var rxBuffer: string
    var dropped: bool
    /** The messages handed on so far. */
    ghost var dispatched: seq<string>

    ghost function Value(): Drained
      reads this
    {
      Drained(dispatched, rxBuffer, dropped)
    }

    constructor ()
      ensures Value() == START
    {
      rxBuffer, dropped, dispatched := "", false, [];
    }

    /** One wake-up of `handle_sip_stream_`: `batch` is what `recv` delivers until it would block. */
    method HandleStream(batch: string) returns (messages: seq<string>)
      requires !dropped
      modifies this
      ensures dispatched == old(dispatched) + messages
      ensures dropped ==> Receive(old(Value()), batch).(rest := rxBuffer) == Value()
      ensures !dropped ==> Receive(old(Value()), batch) == Value()
    {
      messages := [];
      rxBuffer := rxBuffer + batch;
      if |rxBuffer| > MAX_BUFFER {
        dropped := true;
        return;
      }
      hide *;
      ReceiveIs(Value(), batch);
      ghost var whole := Drain(rxBuffer);
      while true
        invariant !dropped && dispatched == old(dispatched) + messages
        invariant var d := Drain(rxBuffer); whole == Drained(messages + d.messages, d.rest, d.rejected)
        decreases |rxBuffer|
      {
        DrainStep(rxBuffer);
        var framing := FrameBuffer();
        if framing.Reject? {
          dropped := true;
          return;
        }
        if framing.NeedMore? {
          return;
        }
        ghost var d := Drain(rxBuffer[framing.total..]);
        var msg := rxBuffer[..framing.total];
        assert messages + ([msg] + d.messages) == messages + [msg] + d.messages;
        rxBuffer := rxBuffer[framing.total..];
        messages := messages + [msg];
        dispatched := dispatched + [msg];
      }
    }

    /** The front of the buffer, as the loop of `handle_sip_stream_` judges it. */
    method FrameBuffer() returns (r: Framing)
      ensures r == Frame(rxBuffer)
    {
      hide ContentLength;
      var sep := Scan(rxBuffer, BLANK, 0);
      if sep.None? {
        return NeedMore;
      }
      var length := SipContentLength(rxBuffer);
      if length.None? {
        return Reject;
      }
      if length.value > MAX_BODY {
        return Reject;
      }
      var total := sep.value + 4 + length.value;
      if total > MAX_BUFFER {
        return Reject;
      }
      if |rxBuffer| < total {
        return NeedMore;
      }
      return Message(total);
    }
  }
}
