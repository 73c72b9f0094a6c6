/**
 What TCP framing promises: the messages taken from a stream do not depend on how it was cut, no byte is lost, and
 messages written one behind the other come back.
 */
module SipFramingTheorems {
  import opened Machine
  import opened SipFraming

  // ---------- More bytes do not change what is framed ----------

  lemma OccursInFront(s: string, more: string, needle: string, at: nat)
    requires at + |needle| <= |s|
    ensures OccursAt(s + more, needle, at) <==> OccursAt(s, needle, at)
  {
    assert (s + more)[at..at + |needle|] == s[at..at + |needle|];
  }

  lemma FoundInFront(s: string, more: string, needle: string)
    requires Find(s, needle, 0).Some?
    ensures Find(s + more, needle, 0) == Find(s, needle, 0)
  {
    var at := Find(s, needle, 0).value;
    hide OccursAt;
    OccursInFront(s, more, needle, at);
    var found := Find(s + more, needle, 0);
    if found.Some? && found.value < at {
      OccursInFront(s, more, needle, found.value);
    }
  }

  /** A verdict on the front of a buffer stays when more bytes arrive; only "need more" can change. */
  lemma FrameInFront(s: string, more: string)
    requires !Frame(s).NeedMore?
    ensures Frame(s + more) == Frame(s)
  {
    hide ContentLength, Find;
    FoundInFront(s, more, BLANK);
    var sep := Find(s, BLANK, 0).value;
    assert (s + more)[..sep] == s[..sep];
  }

  /** Messages taken so far, then the rest of the stream: the same as taking them all at the end. */
  lemma {:induction false} DrainInFront(s: string, more: string)
    ensures var d, all := Drain(s), Drain(s + more);
            if d.rejected then all.rejected && all.messages == d.messages
            else all == Drained(d.messages + Drain(d.rest + more).messages, Drain(d.rest + more).rest, Drain(d.rest + more).rejected)
    decreases |s|
  {
    hide Frame;
    if !Frame(s).NeedMore? {
      FrameInFront(s, more);
    }
    if Frame(s).Message? {
      var total := Frame(s).total;
      assert (s + more)[total..] == s[total..] + more && (s + more)[..total] == s[..total];
      DrainInFront(s[total..], more);
    }
  }

  // ---------- Cutting the stream ----------

  /** At every wake-up up to `n`, what is buffered fits the receive buffer. */
  predicate NeverOverflows(batches: seq<string>, n: nat)
    requires n <= |batches|
  {
    forall i :: 0 <= i < n ==> Feed(batches, i).rejected || |Feed(batches, i).rest + batches[i]| <= MAX_BUFFER
  }

  /** However the stream was cut, the receiver has taken exactly what the whole stream at once would give. */
  lemma {:induction false} FeedIsDrain(batches: seq<string>, n: nat)
    requires n <= |batches| && NeverOverflows(batches, n)
    ensures var s, d := Feed(batches, n), Drain(Stream(batches, n));
            s.messages == d.messages && s.rejected == d.rejected && (!s.rejected ==> s.rest == d.rest)
  {
    hide Drain;
    if n == 0 {
      DrainStep("");
      assert Frame("").NeedMore?;
    } else {
      FeedIsDrain(batches, n - 1);
      DrainInFront(Stream(batches, n - 1), batches[n - 1]);
      assert Feed(batches, n - 1).rejected || |Feed(batches, n - 1).rest + batches[n - 1]| <= MAX_BUFFER;
    }
  }

  /**
   Chunk independence: two cuts of the same bytes, neither of which overfills the receive buffer, dispatch the same
   messages in the same order, reject at the same message or not at all, and leave the same bytes.
   */
  lemma CutsDoNotMatter(one: seq<string>, other: seq<string>)
    requires Stream(one, |one|) == Stream(other, |other|)
    requires NeverOverflows(one, |one|) && NeverOverflows(other, |other|)
    ensures var a, b := Feed(one, |one|), Feed(other, |other|);
            a.messages == b.messages && a.rejected == b.rejected && (!a.rejected ==> a.rest == b.rest)
  {
    FeedIsDrain(one, |one|);
    FeedIsDrain(other, |other|);
    hide Feed, Drain, Stream;
  }

  // ---------- Nothing lost, nothing invented ----------

  function Concat(messages: seq<string>): string {
    if messages == [] then "" else messages[0] + Concat(messages[1..])
  }

  /** The messages and the rest are the buffer, and each message is framed as itself. */
  lemma {:induction false} DrainConserves(buffer: string)
    ensures var d := Drain(buffer);
            && Concat(d.messages) + d.rest == buffer
            && !Frame(d.rest).Message? && (d.rejected <==> Frame(d.rest).Reject?)
            && forall i :: 0 <= i < |d.messages| ==> Frame(d.messages[i]) == Message(|d.messages[i]|)
    decreases |buffer|
  {
    hide Frame;
    if Frame(buffer).Message? {
      var total := Frame(buffer).total;
      DrainConserves(buffer[total..]);
      FrameAlone(buffer);
      assert Drain(buffer).messages[1..] == Drain(buffer[total..]).messages;
    }
  }

  /** A message cut out of the buffer is framed the same on its own. */
  lemma FrameAlone(buffer: string)
    requires Frame(buffer).Message?
    ensures Frame(buffer[..Frame(buffer).total]) == Frame(buffer)
  {
    var total := Frame(buffer).total;
    var msg := buffer[..total];
    var sep := Find(buffer, BLANK, 0).value;
    assert buffer == msg + buffer[total..];
    hide ContentLength, Find;
    OccursInFront(msg, buffer[total..], BLANK, sep);
    var found := Find(msg, BLANK, 0);
    FoundInFront(msg, buffer[total..], BLANK);
    assert msg[..sep] == buffer[..sep];
  }

  /** Messages that each frame as themselves come back, in order, from their concatenation. */
  lemma {:induction false} ConcatenationComesBack(messages: seq<string>)
    requires forall i :: 0 <= i < |messages| ==> Frame(messages[i]) == Message(|messages[i]|)
    ensures Drain(Concat(messages)) == Drained(messages, "", false)
  {
    if messages == [] {
      assert Frame("").NeedMore?;
    } else {
      hide Frame;
      var first, others := messages[0], Concat(messages[1..]);
      FrameInFront(first, others);
      assert (first + others)[..|first|] == first && (first + others)[|first|..] == others;
      assert messages == [first] + messages[1..];
      ConcatenationComesBack(messages[1..]);
    }
  }

  // ---------- Writing a message and framing it ----------

  function Digit(d: nat): char
    requires d < 10
  {
    ('0' as int + d) as char
  }

  function Decimal(n: nat): (s: string)
    ensures s != [] && forall i :: 0 <= i < |s| ==> IsDigit(s[i])
  {
    if n < 10 then [Digit(n)] else Decimal(n / 10) + [Digit(n % 10)]
  }

  lemma {:induction false} NumberInFront(s: string, more: string, n: nat)
    requires n <= |s|
    ensures Number(s + more, n) == Number(s, n)
  {
    if n > 0 {
      NumberInFront(s, more, n - 1);
    }
  }

  lemma {:induction false} DecimalReads(n: nat)
    requires n <= MAX_BUFFER
    ensures Number(Decimal(n), |Decimal(n)|) == Some(n)
  {
    if n < 10 {
      assert Number(Decimal(n), 0) == Some(0);
    } else {
      DecimalReads(n / 10);
      NumberInFront(Decimal(n / 10), [Digit(n % 10)], |Decimal(n / 10)|);
    }
  }

  function LengthLine(n: nat): string {
    "Content-Length:" + " " + Decimal(n)
  }

  lemma TrimKeeps(s: string)
    requires s != [] && !IsBlank(s[0]) && !IsBlank(s[|s| - 1])
    ensures Trim(s) == s && Trim(" " + s) == s
  {
    assert (" " + s)[1..] == s;
  }

  lemma LengthLineReads(n: nat)
    requires n <= MAX_BUFFER
    ensures ReadLine(LengthLine(n)) == Length(n)
  {
    var line := LengthLine(n);
    var value := Decimal(n);
    assert line[14] == ':' && OccursAt(line, ":", 14);
    assert line[..14] == "Content-Length";
    var colon := Find(line, ":", 0).value;
    OccursHas(line, ":", colon, 0);
    assert forall i :: 0 <= i < 14 ==> line[i] == "Content-Length"[i] && line[i] != ':';
    assert line[15..] == " " + value;
    DecimalReads(n);
    TrimKeeps(value);
    assert LowerAll("Content-Length") == "content-length";
    TrimKeeps("content-length");
    hide Find, Trim, Number, LowerAll, Decimal, OccursAt;
  }

  /** A header line that says nothing about the length: not empty, and without line ends. */
  predicate Plain(line: string) {
    line != "" && ReadLine(line).Other? && forall i :: 0 <= i < |line| ==> line[i] != '\r' && line[i] != '\n'
  }

  /** Header lines and, last, the length line. */
  function Headers(lines: seq<string>, n: nat): string {
    if lines == [] then LengthLine(n) else lines[0] + CRLF + Headers(lines[1..], n)
  }

  function Written(lines: seq<string>, body: string): string {
    Headers(lines, |body|) + BLANK + body
  }

  /** Every carriage return is followed, two places on, by something else. */
  predicate NoBlankLine(s: string) {
    forall i :: 0 <= i < |s| && s[i] == '\r' ==> i + 2 < |s| && s[i + 2] != '\r'
  }

  lemma {:induction false} HeadersHaveNoBlankLine(lines: seq<string>, n: nat)
    requires forall i :: 0 <= i < |lines| ==> Plain(lines[i])
    ensures NoBlankLine(Headers(lines, n)) && Headers(lines, n) != "" && Headers(lines, n)[0] != '\r'
  {
    if lines == [] {
      var line := LengthLine(n);
      assert forall i :: 0 <= i < 16 ==> line[i] == ("Content-Length:" + " ")[i] && line[i] != '\r';
      assert forall i :: 16 <= i < |line| ==> line[i] == Decimal(n)[i - 16] && IsDigit(line[i]);
    } else {
      HeadersHaveNoBlankLine(lines[1..], n);
      assert Plain(lines[0]);
      hide ReadLine;
      var front, back := lines[0], Headers(lines[1..], n);
      var s := front + CRLF + back;
      assert forall i :: 0 <= i < |front| ==> s[i] == front[i] && s[i] != '\r';
      assert forall i :: 0 <= i < |back| ==> s[|front| + 2 + i] == back[i];
      forall i | 0 <= i < |s| && s[i] == '\r'
        ensures i + 2 < |s| && s[i + 2] != '\r'
      {
        if i != |front| {
          assert s[i] == back[i - |front| - 2];
        }
      }
    }
  }

  lemma BlankFound(headers: string, body: string)
    requires NoBlankLine(headers)
    ensures Find(headers + BLANK + body, BLANK, 0) == Some(|headers|)
  {
    var msg := headers + BLANK + body;
    assert msg[|headers|..|headers| + 4] == BLANK;
    assert OccursAt(msg, BLANK, |headers|);
    var found := Find(msg, BLANK, 0).value;
    OccursHas(msg, BLANK, found, 0);
    OccursHas(msg, BLANK, found, 2);
    assert forall i :: 0 <= i < |headers| ==> msg[i] == headers[i];
    hide OccursAt, Find;
  }

  /** A plain line ends at the line end behind it. */
  lemma PlainLineEnds(front: string, line: string, rest: string)
    requires forall i :: 0 <= i < |line| ==> line[i] != '\r'
    ensures LineEnd(front + line + CRLF + rest, |front|) == |front + line|
  {
    var s, at := front + line + CRLF + rest, |front + line|;
    assert s[at..at + 2] == CRLF;
    assert OccursAt(s, CRLF, at);
    OccursHas(s, CRLF, Find(s, CRLF, |front|).value, 0);
    assert forall i :: |front| <= i < at ==> s[i] == line[i - |front|];
    hide OccursAt, Find;
  }

  lemma LastLineEnds(front: string, line: string)
    requires forall i :: 0 <= i < |line| ==> line[i] != '\r'
    ensures LineEnd(front + line, |front|) == |front + line|
  {
    var s, found := front + line, Find(front + line, CRLF, |front|);
    assert forall i :: |front| <= i < |s| ==> s[i] == line[i - |front|];
    if found.Some? {
      OccursHas(s, CRLF, found.value, 0);
      assert false;
    }
  }

  lemma LengthLineIsPlain(n: nat)
    ensures forall i :: 0 <= i < |LengthLine(n)| ==> LengthLine(n)[i] != '\r'
    ensures LengthLine(n) != ""
  {
    var line := LengthLine(n);
    assert forall i :: 0 <= i < 16 ==> line[i] == ("Content-Length:" + " ")[i];
    assert forall i :: 16 <= i < |line| ==> line[i] == Decimal(n)[i - 16];
  }

  lemma LastLineReads(front: string, line: string, n: nat)
    requires line != "" && ReadLine(line) == Length(n) && forall i :: 0 <= i < |line| ==> line[i] != '\r'
    ensures LengthFrom(front + line, |front|, None) == Some(Some(n))
  {
    hide *;
    LastLineEnds(front, line);
    assert (front + line)[|front|..|front + line|] == line;
    LengthStep(front + line, |front|, None);
  }

  lemma PlainLineReads(front: string, line: string, rest: string)
    requires Plain(line) && rest != ""
    ensures var s := front + line + CRLF + rest;
            LengthFrom(s, |front|, None) == LengthFrom(s, |front + line + CRLF|, None)
  {
    assert ReadLine(line).Other? && forall i :: 0 <= i < |line| ==> line[i] != '\r';
    hide *;
    PlainLineEnds(front, line, rest);
    var s, end := front + line + CRLF + rest, |front + line|;
    assert |front| < |s| && end < |s| && |front + line + CRLF| == end + 2;
    assert s[|front|..end] == line;
    LengthStep(s, |front|, None);
  }

  lemma {:induction false} HeadersRead(front: string, lines: seq<string>, n: nat)
    requires n <= MAX_BUFFER && forall i :: 0 <= i < |lines| ==> Plain(lines[i])
    ensures LengthFrom(front + Headers(lines, n), |front|, None) == Some(Some(n))
    decreases |lines|
  {
    if lines == [] {
      LengthLineIsPlain(n);
      LengthLineReads(n);
      hide *;
      LastLineReads(front, LengthLine(n), n);
    } else {
      var line, rest := lines[0], Headers(lines[1..], n);
      assert Headers(lines, n) == line + CRLF + rest;
      hide *;
      assert front + Headers(lines, n) == front + line + CRLF + rest;
      HeadersHaveNoBlankLine(lines[1..], n);
      PlainLineReads(front, line, rest);
      HeadersRead(front + line + CRLF, lines[1..], n);
    }
  }

  /**
   A message written with any plain header lines and its body's true length is framed as exactly itself, whatever
   follows it in the stream.
   */
  lemma WrittenIsFramed(lines: seq<string>, body: string, more: string)
    requires forall i :: 0 <= i < |lines| ==> Plain(lines[i])
    requires |body| <= MAX_BODY && |Written(lines, body)| <= MAX_BUFFER
    ensures Frame(Written(lines, body) + more) == Message(|Written(lines, body)|)
  {
    var headers, msg := Headers(lines, |body|), Written(lines, body);
    HeadersHaveNoBlankLine(lines, |body|);
    BlankFound(headers, body);
    assert "" + headers == headers;
    HeadersRead("", lines, |body|);
    assert msg[..|headers|] == headers;
    hide Find, LengthFrom, Headers, Plain;
    assert Frame(msg) == Message(|msg|);
    hide Frame;
    FrameInFront(msg, more);
  }
}
