/**
 The shape of an SDP answer: `RemoteMediaShape` (esphome/components/voip_stack/sip_transport.h), and
 `capture_remote_media_shape_`, `rejected_media_answer_` and `build_sdp_answer_` (sip_sdp.cpp); RFC 3264 section 6.
 An SDP body is a sequence of lines, each with what the media-line parsers say about it.
 */
module SdpAnswer {
  import opened Machine
  import opened AudioPayloads
  import Sel = SdpSelection

  const MAX_MEDIA_LINES: nat := 8
  const MAX_BYTES: nat := 65535

  /** One SDP line; `audio` and `video` are the verdicts of `parse_audio_media_line` and `parse_video_media_line`. */
  datatype Line = Line(text: string, audio: bool, video: bool)

  predicate IsMedia(text: string) {
    "m=" <= text
  }

  predicate WellFormed(line: Line) {
    (line.audio ==> "m=audio " <= line.text) && (line.video ==> "m=video " <= line.text)
  }

  // ---------- The packed media lines ----------

  /** The lines kept, and which of them the audio and the video stream are. */
  datatype Shape = Shape(lines: seq<string>, audio: Option<nat>, video: Option<nat>, overflow: bool)

  const EMPTY := Shape([], None, None, false)

  function TotalBytes(lines: seq<string>): nat {
    if lines == [] then 0 else TotalBytes(lines[..|lines| - 1]) + |lines[|lines| - 1]|
  }

  /** `append`: at most eight lines and 65535 bytes. */
  function Appended(s: Shape, text: string): Shape {
    if |s.lines| >= MAX_MEDIA_LINES || TotalBytes(s.lines) + |text| > MAX_BYTES then s.(overflow := true)
    else s.(lines := s.lines + [text])
  }

  /** Line `i` runs from offset `i` to offset `i + 1`. */
  predicate PackedAt(bytes: string, offsets: seq<nat>, i: nat, line: string) {
    i + 1 < |offsets| && offsets[i] <= offsets[i + 1] <= |bytes| && bytes[offsets[i]..offsets[i + 1]] == line
  }

  /** Lines packed one behind the other. */
  predicate Packs(bytes: string, offsets: seq<nat>, lines: seq<string>) {
    && |offsets| == MAX_MEDIA_LINES + 1 && |lines| <= MAX_MEDIA_LINES
    && offsets[0] == 0 && offsets[|lines|] == |bytes|
    && forall i :: 0 <= i < |lines| ==> PackedAt(bytes, offsets, i, lines[i])
  }

  lemma PackOne(bytes: string, offsets: seq<nat>, lines: seq<string>, text: string)
    requires Packs(bytes, offsets, lines) && |lines| < MAX_MEDIA_LINES
    ensures Packs(bytes + text, offsets[|lines| + 1 := |bytes + text|], lines + [text])
  {
    var offsets' := offsets[|lines| + 1 := |bytes + text|];
    forall i | 0 <= i <= |lines|
      ensures PackedAt(bytes + text, offsets', i, (lines + [text])[i])
    {
      if i < |lines| {
        assert PackedAt(bytes, offsets, i, lines[i]);
        assert (bytes + text)[offsets[i]..offsets[i + 1]] == bytes[offsets[i]..offsets[i + 1]];
      }
    }
  }

  /** The bytes packed are those of the lines. */
  lemma {:induction false} PackedBytes(bytes: string, offsets: seq<nat>, lines: seq<string>, n: nat)
    requires Packs(bytes, offsets, lines) && n <= |lines|
    ensures TotalBytes(lines[..n]) == offsets[n]
  {
    if n > 0 {
      PackedBytes(bytes, offsets, lines, n - 1);
      assert PackedAt(bytes, offsets, n - 1, lines[n - 1]);
      assert lines[..n][..n - 1] == lines[..n - 1];
    }
  }

  class RemoteMediaShape {
    var bytes: string
    var offsets: seq<nat>
    var count: nat
    var overflow: bool
    /** The lines packed. */
    ghost var lines: seq<string>

    ghost predicate Valid()
      reads this
    {
      Packs(bytes, offsets, lines) && count == |lines|
    }

    constructor ()
      ensures Valid() && lines == [] && !overflow
    {
      bytes, offsets, count, overflow, lines := "", seq(MAX_MEDIA_LINES + 1, _ => 0), 0, false, [];
    }

    /** `append`. */
    method Append(text: string) returns (ok: bool)
      requires Valid()
      modifies this
      ensures Valid()
      ensures var s' := Appended(Shape(old(lines), None, None, old(overflow)), text);
              lines == s'.lines && overflow == s'.overflow && ok == (|s'.lines| > old(count))
    {
      PackedBytes(bytes, offsets, lines, count);
      assert lines[..count] == lines;
      if count >= MAX_MEDIA_LINES || |bytes| + |text| > MAX_BYTES {
        overflow := true;
        return false;
      }
      PackOne(bytes, offsets, lines, text);
      bytes := bytes + text;
      count := count + 1;
      offsets := offsets[count := |bytes|];
      lines := lines + [text];
      return true;
    }

    /** `line`. */
    method Get(index: nat) returns (text: string)
      requires Valid()
      ensures text == if index < count then lines[index] else ""
    {
      if index >= count {
        return "";
      }
      assert PackedAt(bytes, offsets, index, lines[index]);
      return bytes[offsets[index]..offsets[index + 1]];
    }
  }

  // ---------- Capturing an offer ----------

  /** One line of `capture_remote_media_shape_`. */
  function CapturedLine(s: Shape, line: Line): Shape {
    if !IsMedia(line.text) then s
    else
      var s' := Appended(s, line.text);
      if |s'.lines| == |s.lines| then s'
      else
        s'.(audio := if s.audio.None? && line.audio then Some(|s.lines|) else s.audio,
            video := if s.video.None? && line.video then Some(|s.lines|) else s.video)
  }

  function Captured(sdp: seq<Line>, n: nat): Shape
    requires n <= |sdp|
  {
    if n == 0 then EMPTY else CapturedLine(Captured(sdp, n - 1), sdp[n - 1])
  }

  /** `selected_audio_line`: the line whose codecs `learn_remote_rtp_from_sdp_` negotiates, the first audio media line. */
  function SelectedLine(sdp: seq<Line>, n: nat): Option<nat>
    requires n <= |sdp|
  {
    if n == 0 then None
    else if SelectedLine(sdp, n - 1).Some? then SelectedLine(sdp, n - 1)
    else if IsMedia(sdp[n - 1].text) && sdp[n - 1].audio then Some(n - 1)
    else None
  }

  /** The number of media lines among the first `n`. */
  function MediaCount(sdp: seq<Line>, n: nat): nat
    requires n <= |sdp|
  {
    if n == 0 then 0 else MediaCount(sdp, n - 1) + if IsMedia(sdp[n - 1].text) then 1 else 0
  }

  method Capture(sdp: seq<Line>, shape: RemoteMediaShape) returns (audio: Option<nat>, video: Option<nat>)
    requires shape.Valid() && shape.lines == [] && !shape.overflow
    modifies shape
    ensures shape.Valid()
    ensures Captured(sdp, |sdp|) == Shape(shape.lines, audio, video, shape.overflow)
  {
    audio, video := None, None;
    for n := 0 to |sdp|
      invariant shape.Valid()
      invariant Captured(sdp, n) == Shape(shape.lines, audio, video, shape.overflow)
    {
      var line := sdp[n];
      if IsMedia(line.text) {
        var index := shape.count;
        var ok := shape.Append(line.text);
        if ok {
          if audio.None? && line.audio {
            audio := Some(index);
          }
          if video.None? && line.video {
            video := Some(index);
          }
        }
      }
    }
  }

  /** Without overflow, the shape is the media lines in order, and its audio line is the one that was negotiated. */
  lemma {:induction false} AudioIsTheNegotiatedLine(sdp: seq<Line>, n: nat)
    requires n <= |sdp| && !Captured(sdp, n).overflow
    ensures var s := Captured(sdp, n);
            && |s.lines| == MediaCount(sdp, n)
            && (s.audio.Some? <==> SelectedLine(sdp, n).Some?)
            && (s.audio.Some? ==>
                  var i := SelectedLine(sdp, n).value;
                  i < n && s.audio.value == MediaCount(sdp, i) < |s.lines| && s.lines[s.audio.value] == sdp[i].text)
            && (forall k :: 0 <= k < n && IsMedia(sdp[k].text) ==>
                  MediaCount(sdp, k) < |s.lines| && s.lines[MediaCount(sdp, k)] == sdp[k].text)
  {
    hide TotalBytes;
    if n > 0 {
      AudioIsTheNegotiatedLine(sdp, n - 1);
    }
  }

  /** The recorded streams are lines of their kind. */
  lemma {:induction false} RecordedKinds(sdp: seq<Line>, n: nat)
    requires n <= |sdp| && forall k :: 0 <= k < |sdp| ==> WellFormed(sdp[k])
    ensures var s := Captured(sdp, n);
            && (s.audio.Some? ==> s.audio.value < |s.lines| && "m=audio " <= s.lines[s.audio.value])
            && (s.video.Some? ==> s.video.value < |s.lines| && "m=video " <= s.lines[s.video.value])
            && (forall k :: 0 <= k < |s.lines| ==> IsMedia(s.lines[k]))
  {
    hide TotalBytes;
    if n > 0 {
      RecordedKinds(sdp, n - 1);
      assert WellFormed(sdp[n - 1]);
    }
  }

  // ---------- Answering ----------

  /** The first index from `from` on that holds a space, or with `tabs` a space or a tab. */
  function FirstGap(s: string, from: nat, tabs: bool): (r: Option<nat>)
    ensures r.Some? ==> from <= r.value < |s| && (s[r.value] == ' ' || (tabs && s[r.value] == '\t'))
    ensures r.Some? ==> forall i :: from <= i < r.value ==> s[i] != ' ' && (tabs ==> s[i] != '\t')
    decreases |s| - from
  {
    if from >= |s| then None
    else if s[from] == ' ' || (tabs && s[from] == '\t') then Some(from)
    else FirstGap(s, from + 1, tabs)
  }

  /** `rejected_media_answer_`: the same media line with port 0. */
  function Rejected(text: string): Option<string> {
    if !IsMedia(text) then None
    else
      var start := FirstGap(text, 0, false);
      if start.None? then None
      else
        var end := FirstGap(text, start.value + 1, true);
        if end.None? then None
        else Some(text[..start.value + 1] + "0" + text[end.value..] + "\r\na=inactive\r\n")
  }

  /** The section that answers line `index`. */
  function Section(s: Shape, audio: string, video: string, index: nat): Option<string>
    requires index < |s.lines|
  {
    if s.audio == Some(index) then Some(audio)
    else if s.video == Some(index) && video != "" then Some(video)
    else Rejected(s.lines[index])
  }

  /** One section of the answer for each line of the offer, from line `index` on. */
  function Sections(s: Shape, audio: string, video: string, index: nat): Option<seq<string>>
    requires index <= |s.lines|
    decreases |s.lines| - index
  {
    if index == |s.lines| then Some([])
    else
      var section := Section(s, audio, video, index);
      var more := Sections(s, audio, video, index + 1);
      if section.None? || more.None? then None else Some([section.value] + more.value)
  }

  /** The answer so far, `answer`, and the sections still to come are the whole answer. */
  predicate Continues(s: Shape, audio: string, video: string, answer: seq<string>)
    requires |answer| <= |s.lines|
  {
    var rest := Sections(s, audio, video, |answer|);
    Sections(s, audio, video, 0) == if rest.None? then None else Some(answer + rest.value)
  }

  lemma SectionsStep(s: Shape, audio: string, video: string, index: nat)
    requires index < |s.lines|
    ensures var more := Sections(s, audio, video, index + 1);
            var section := Section(s, audio, video, index);
            Sections(s, audio, video, index)
            == if section.None? || more.None? then None else Some([section.value] + more.value)
  {
    hide Rejected;
  }

  /** The loop of `build_sdp_answer_` over the offered lines. */
  method BuildSections(s: Shape, audio: string, video: string) returns (r: Option<seq<string>>)
    ensures r == if s.overflow then None else Sections(s, audio, video, 0)
  {
    if s.overflow {
      return None;
    }
    var answer: seq<string> := [];
    AnswerStarts(s, audio, video);
    for index := 0 to |s.lines|
      invariant |answer| == index && Continues(s, audio, video, answer)
    {
      AnswerGoesOn(s, audio, video, answer);
      hide Sections, Continues, Rejected;
      if s.audio == Some(index) {
        answer := answer + [audio];
      } else if s.video == Some(index) && video != "" {
        answer := answer + [video];
      } else {
        var rejected := Rejected(s.lines[index]);
        if rejected.None? {
          return None;
        }
        answer := answer + [rejected.value];
      }
    }
    assert answer + [] == answer;
    return Some(answer);
  }

  lemma AnswerGoesOn(s: Shape, audio: string, video: string, answer: seq<string>)
    requires |answer| < |s.lines| && Continues(s, audio, video, answer)
    ensures var section := Section(s, audio, video, |answer|);
            if section.Some? then Continues(s, audio, video, answer + [section.value])
            else Sections(s, audio, video, 0) == None
  {
    SectionsStep(s, audio, video, |answer|);
    hide Rejected, Sections;
    var rest := Sections(s, audio, video, |answer| + 1);
    assert forall x: string :: rest.Some? ==> answer + ([x] + rest.value) == answer + [x] + rest.value;
  }

  lemma AnswerStarts(s: Shape, audio: string, video: string)
    ensures Continues(s, audio, video, [])
    ensures Sections(s, audio, video, |s.lines|) == Some([])
  {
    var rest := Sections(s, audio, video, 0);
    assert rest.Some? ==> [] + rest.value == rest.value;
  }

  /** The media type of an m-line: what stands between "m=" and the first space. */
  function MediaType(text: string): string {
    var gap := FirstGap(text, 0, false);
    if IsMedia(text) && gap.Some? && gap.value >= 2 then text[2..gap.value] else ""
  }

  /** `section` answers `offered` with the stream refused: same line, port 0. */
  predicate IsRejected(offered: string, section: string) {
    Rejected(offered) == Some(section)
  }

  lemma RejectedKeepsType(text: string)
    requires Rejected(text).Some?
    ensures MediaType(Rejected(text).value) == MediaType(text)
  {
    var start := FirstGap(text, 0, false).value;
    var end := FirstGap(text, start + 1, true).value;
    var refused := Rejected(text).value;
    assert refused[..start + 1] == text[..start + 1];
    assert refused[start] == ' ' && forall i :: 0 <= i < start ==> refused[i] == text[i];
    assert text[0] == 'm' && text[1] == '=';
    GapAt(refused, 0, start);
    assert refused[2..start] == text[2..start];
  }

  lemma {:induction false} GapAt(s: string, from: nat, at: nat)
    requires from <= at < |s| && s[at] == ' ' && forall i :: from <= i < at ==> s[i] != ' '
    ensures FirstGap(s, from, false) == Some(at)
    decreases at - from
  {
    if from < at {
      GapAt(s, from + 1, at);
    }
  }

  lemma {:induction false} SectionAt(s: Shape, audio: string, video: string, from: nat, k: nat)
    requires from <= k < |s.lines| && Sections(s, audio, video, from).Some?
    ensures var r := Sections(s, audio, video, from).value;
            && |r| == |s.lines| - from
            && (if s.audio == Some(k) then r[k - from] == audio
                else if s.video == Some(k) && video != "" then r[k - from] == video
                else IsRejected(s.lines[k], r[k - from]))
    decreases |s.lines| - from
  {
    hide Rejected;
    if from < k {
      SectionAt(s, audio, video, from + 1, k);
    } else if from + 1 < |s.lines| {
      SectionAt(s, audio, video, from + 1, from + 1);
    }
  }

  lemma {:induction false} MediaCountGrows(sdp: seq<Line>, i: nat, k: nat)
    requires i < k <= |sdp| && IsMedia(sdp[i].text)
    ensures MediaCount(sdp, i) < MediaCount(sdp, k)
    decreases k
  {
    if i + 1 < k {
      MediaCountGrows(sdp, i, k - 1);
    }
  }

  lemma MediaCountIsInjective(sdp: seq<Line>, i: nat, k: nat)
    requires i < |sdp| && k < |sdp| && IsMedia(sdp[i].text) && IsMedia(sdp[k].text)
    ensures MediaCount(sdp, i) == MediaCount(sdp, k) <==> i == k
  {
    if i < k {
      MediaCountGrows(sdp, i, k);
    } else if k < i {
      MediaCountGrows(sdp, k, i);
    }
  }

  lemma {:induction false} SelectedIsMedia(sdp: seq<Line>, n: nat)
    requires n <= |sdp|
    ensures SelectedLine(sdp, n).Some? ==> SelectedLine(sdp, n).value < n && IsMedia(sdp[SelectedLine(sdp, n).value].text)
  {
    if n > 0 {
      SelectedIsMedia(sdp, n - 1);
    }
  }

  lemma TypeOf(text: string, kind: string)
    requires kind == "m=audio " || kind == "m=video "
    requires kind <= text
    ensures MediaType(text) == kind[2..7]
  {
    assert text[..8] == kind;
    assert forall i :: 0 <= i < 8 ==> text[i] == text[..8][i];
    GapAt(text, 0, 7);
    assert text[2..7] == text[..8][2..7];
  }

  /**
   An answer to an offer has one section for each offered media line, in the same order and of the same media type.
   Only the line whose codecs were negotiated carries the audio answer, only the recorded video line the video answer,
   and every other section is the offered line with port 0.
   */
  lemma AnswerMatchesOffer(sdp: seq<Line>, audio: string, video: string, k: nat)
    requires forall i :: 0 <= i < |sdp| ==> WellFormed(sdp[i])
    requires "m=audio " <= audio && (video == "" || "m=video " <= video)
    requires !Captured(sdp, |sdp|).overflow && Sections(Captured(sdp, |sdp|), audio, video, 0).Some?
    requires k < |sdp| && IsMedia(sdp[k].text)
    ensures var s, r, j := Captured(sdp, |sdp|), Sections(Captured(sdp, |sdp|), audio, video, 0).value, MediaCount(sdp, k);
            && j < |r| == MediaCount(sdp, |sdp|)
            && MediaType(r[j]) == MediaType(sdp[k].text)
            && (s.audio == Some(j) <==> SelectedLine(sdp, |sdp|) == Some(k))
            && (SelectedLine(sdp, |sdp|) == Some(k) ==> r[j] == audio)
            && (s.audio != Some(j) && !(s.video == Some(j) && video != "") ==> IsRejected(sdp[k].text, r[j]))
  {
    hide *;
    var s, j := Captured(sdp, |sdp|), MediaCount(sdp, k);
    AudioIsTheNegotiatedLine(sdp, |sdp|);
    SelectedIsMedia(sdp, |sdp|);
    if s.audio.Some? {
      MediaCountIsInjective(sdp, k, SelectedLine(sdp, |sdp|).value);
    }
    RecordedKinds(sdp, |sdp|);
    SectionAt(s, audio, video, 0, j);
    SectionKeepsType(s, audio, video, j, Sections(s, audio, video, 0).value[j]);
  }

  lemma SectionKeepsType(s: Shape, audio: string, video: string, j: nat, section: string)
    requires "m=audio " <= audio && (video == "" || "m=video " <= video) && j < |s.lines|
    requires s.audio == Some(j) ==> "m=audio " <= s.lines[j]
    requires s.video == Some(j) ==> "m=video " <= s.lines[j]
    requires if s.audio == Some(j) then section == audio
             else if s.video == Some(j) && video != "" then section == video
             else IsRejected(s.lines[j], section)
    ensures MediaType(section) == MediaType(s.lines[j])
  {
    hide MediaType, Rejected;
    if s.audio == Some(j) {
      TypeOf(audio, "m=audio ");
      TypeOf(s.lines[j], "m=audio ");
    } else if s.video == Some(j) && video != "" {
      TypeOf(video, "m=video ");
      TypeOf(s.lines[j], "m=video ");
    } else {
      RejectedKeepsType(s.lines[j]);
    }
  }

  // ---------- The payload types of the audio answer ----------

  /** The entries answered beside the two selected payload types. */
  function Others(entries: seq<Entry>, skip: set<byte>): (r: seq<byte>)
    ensures forall pt :: pt in r ==> pt !in skip && exists e :: e in entries && e.payloadType == pt
  {
    if entries == [] then []
    else
      assert entries[0] in entries && forall e :: e in entries[1..] ==> e in entries;
      (if entries[0].payloadType in skip then [] else [entries[0].payloadType]) + Others(entries[1..], skip)
  }

  /** The payload types of the audio m-line, in order; `tx` and `rx` are the selected ones of the directions answered. */
  function Payloads(tx: Option<byte>, rx: Option<byte>, entries: seq<Entry>): seq<byte> {
    (if rx.Some? then
       [rx.value] + Others(entries, {rx.value} + if tx.Some? then {tx.value} else {})
     else [])
    + (if tx.Some? && tx != rx then [tx.value] else [])
  }

  predicate AllDifferent(pts: seq<byte>) {
    forall i, j :: 0 <= i < j < |pts| ==> pts[i] != pts[j]
  }

  lemma {:induction false} OthersDiffer(entries: seq<Entry>, skip: set<byte>)
    requires Distinct(entries)
    ensures AllDifferent(Others(entries, skip))
  {
    if entries != [] {
      assert forall i :: 0 < i < |entries| ==> entries[i] == entries[1..][i - 1];
      OthersDiffer(entries[1..], skip);
      var more := Others(entries[1..], skip);
      forall k | 0 <= k < |more|
        ensures more[k] != entries[0].payloadType
      {
        assert more[k] in more;
        var e :| e in entries[1..] && e.payloadType == more[k];
      }
    }
  }

  /** The answer's payload types are distinct, and each is a selected one or one of the receive table. */
  lemma PayloadsAreDistinct(tx: Option<byte>, rx: Option<byte>, entries: seq<Entry>)
    requires Distinct(entries)
    ensures AllDifferent(Payloads(tx, rx, entries))
    ensures forall pt :: pt in Payloads(tx, rx, entries) ==>
              Some(pt) == tx || Some(pt) == rx || (rx.Some? && exists e :: e in entries && e.payloadType == pt)
  {
    if rx.Some? {
      var skip := {rx.value} + if tx.Some? then {tx.value} else {};
      OthersDiffer(entries, skip);
      var others := Others(entries, skip);
      assert forall k :: 0 <= k < |others| ==> others[k] in others && others[k] !in skip;
      hide Others;
    }
  }

  /** The audio answer to an offer names payload types that are distinct and all offered. */
  lemma AnswersOfferedPayloads(session: Sel.Session, ms: seq<Sel.Mapping>)
    requires Sel.OfOffer(ms) && Sel.Selected(session, ms, |ms|).Some?
    requires Sel.Selected(session, ms, |ms|).value.rx.Some?
    ensures var sel := Sel.Selected(session, ms, |ms|).value;
            var rx := Sel.FinalRx(session, sel);
            var kept := Sel.Accepted(session, sel.received, rx.format);
            var pts := Payloads(if sel.tx.Some? then Some(sel.tx.value.pt) else None, Some(rx.pt), kept);
            AllDifferent(pts) && forall pt :: pt in pts ==> Sel.Offered(ms, pt)
  {
    hide *;
    var sel := Sel.Selected(session, ms, |ms|).value;
    var rx := Sel.FinalRx(session, sel);
    Sel.ReceiveIsRecorded(session, ms, |ms|);
    Sel.ReceivesOnlyOffered(session, ms, |ms|);
    TransmitIsOffered(session, ms);
    Sel.AcceptedServesTheSink(session, ms);
    Sel.AcceptedIs(session, sel.received, rx.format);
    var kept := Sel.Accepted(session, sel.received, rx.format);
    Sel.TableIsDistinct(kept);
    assert Entry(rx.format, rx.pt) in kept;
    PayloadsAreDistinct(if sel.tx.Some? then Some(sel.tx.value.pt) else None, Some(rx.pt), kept);
  }

  lemma TransmitIsOffered(session: Sel.Session, ms: seq<Sel.Mapping>)
    requires Sel.Selected(session, ms, |ms|).Some?
    ensures var sel := Sel.Selected(session, ms, |ms|).value; sel.tx.Some? ==> Sel.Offered(ms, sel.tx.value.pt)
  {
    hide Sel.Selected, Sel.TxEligible;
    Sel.TransmitsLeastRank(session, ms, |ms|);
  }
}
