# SIP phone stack: models and proofs

This project models the parts of the ESPHome SIP/RTP phone stack whose correctness spans many operations, and proves
what they promise over every input, every run or every interleaving. `dafny verify dfyconfig.toml` checks all of it.

Each component has a model that follows the C++ branch by branch. Components whose C++ updates fields or buffers in
place are classes or loops, proved to compute functions on values; the theorems are about those functions, over whole
runs. The tasks that share buffers through atomics are state machines of single atomic steps under sequential
consistency, and the theorems quantify over every interleaving.

| files | component | main results |
|---|---|---|
| `JitterModel`, `JitterBuffer`, `JitterTheorems`, `JitterWindow`, `JitterOrder` | RTP jitter buffer (RFC 3550 section 5.1) | flat slots refine a finite map on a moving 16-bit window; conservation; playout order |
| `JpegTables`, `JpegFormat`, `JpegParser`, `JpegRoundTrip` | JPEG parser and header printer | a rebuilt frame parses back, whatever its scan holds |
| `JpegReassembly`, `JpegDepacketizer`, `JpegTheorems`, `JpegDelivery` | RTP/JPEG reassembler (RFC 2435) | completes exactly on unbroken runs of fragments; sender-to-receiver round trip; one table set per Q |
| `VideoSource`, `VideoSourceProofs`, `VideoSourceTheorems`, `VideoSourceWakeUp`, `VideoSourceStale` | H.264 camera source, buffer ownership | exclusive buffers, sound idle check, no free while in use, exactly when a stop misses its wake-up and when the wake-up misleads it |
| `P4Renderer`, `P4Scale` | JPEG display pipeline | the decoder never touches what is shown or being refreshed; frames conserved, in order and none skipped; scale search |
| `MediaEpoch`, `MediaRuns`, `MediaGlare`, `MediaLate` | even/odd media epoch | every RTP packet is built from one stable configuration in every run that meets none of three guards, which are exact for retries, commits and answers |
| `SipFraming`, `SipFramingTheorems` | SIP over TCP (RFC 3261 section 18.3) | framing does not depend on how the stream is cut; written messages come back |
| `UdpTransaction` | request retransmission (RFC 3261 section 17.1.2.2) | intervals, bound of ten, timeout, on a wrapping clock |
| `UasDialog`, `UasTransport` | ACK and BYE of accepted calls (RFC 3261 sections 13.3.1.4, 14.2, 15) | when no BYE precedes the ACK |
| `Refer`, `ReferTransport` | blind transfer (RFC 3515) | at most two NOTIFYs and one dialog told to end per transfer, over every run; owner's dialog untouched |
| `AudioPayloads`, `SdpSelection`, `SdpAnswer` | SDP offer/answer (RFC 3264 section 6) | answer matches offer line by line; what is accepted can be played |
| `DcBlocker` | fixed-point DC blocker | the exact input range without 32-bit overflow |

## What the proofs found

- Jitter buffer: the branch that evicts a frame of another sequence number (lines 178-183) is unreachable exactly when the
  slot count divides 65536 (`JitterWindow.CollisionIffNotDividing`). The `valid_count_ > 0` guards and the repair at the
  top of `read` never take their other side (`JitterTheorems.GuardsAlwaysTaken`).
- H.264 source: a give of `tx_idle_` taken after a drain does not by itself mean idle, because a thread may have passed
  its idle check before a restart (`VideoSourceTheorems.StaleGiveIsPossible`). With a callback about to claim a slot at
  the drain, that can happen if and only if a consumer or callback is past the first read of such a check
  (`VideoSourceStale.MisleadsIffPastRead`); the second check in `wait_for_tx_idle_` is what makes its answer sound
  (`IdleCheckIsSound`). A waiting stop misses its wake-up only if the gate reopens, somebody else takes the semaphore, or
  the exiting worker discards a queued frame, which it does without a give (`StopIsWokenUp`), and each of the three has
  its losing run (`RestartLosesTheWakeUp`, `SecondStopTakesTheWakeUp`, `WorkerExitLosesTheWakeUp`). With the gate shut
  and the semaphore left alone, it is lost if and only if that discard freed the last word in use and no callback came
  after it (`VideoSourceWakeUp.WakeUpLostIffDiscarded`).
- RTP/JPEG: a parsed frame survives the trip exactly when none of its quantizers is zero and it fits
  (`JpegDelivery.RoundTrip`); the parser accepts zero quantizers, which every receiver then refuses.
- Callee hang-up: an INVITE that arrives in the early dialog is refused with a cached 481. While that response awaits
  its ACK, the 2xx of the first INVITE is not remembered, and a hang-up then sends BYE before the ACK
  (`UasDialog.RefusedReinviteBlocks`). This is the only way it can happen (`NoEarlyBye`, `EarlyIffBlocked`).
- Transfer: the candidate's acceptance ends exactly one dialog if and only if the owner's media are active. With the
  owner's call up but its media closed, the acceptance is forgotten and the candidate's call is left standing
  (`Refer.OneByeIffMediaActive`), as a run from the start shows (`AcceptanceForgotten`). Ending a retired candidate's call
  also drops the provisional response that a new call is still waiting to send (`RetiredCandidateDropsResponse`).
- Media epoch: packets can mix configurations in two ways, and only there (`MediaEpoch.PacketsUseOneConfiguration`).
  A proposal can open inside a REFER scope, in video builds: while the old dialog of a committed transfer is hanging up, a
  491 to our own video re-INVITE schedules a retry, `pump_refer_` sends it with the old dialog in place, and its 2xx is
  handled in a REFER scope, where the proposal it opens makes the epoch even (`MediaGlare.GlareMixesConfigurations`). A
  pumped scope has such a continuation if and only if a retry was waiting and media were active, and a commit if and only
  if our own re-INVITE is outstanding on the dialog it retires (`MixesIffRetryWaits`, `MixesIffOutstanding`).
  A negotiation can also write in no scope at all while the RTP path runs: in a call we originated, another 2xx to its
  INVITE passes every check once the record that replays its ACK has lapsed, after 64*T1, and writes media and address
  one after the other at an even epoch (`MediaLate.LateAnswerMixesConfigurations`). Such an answer, a new call's offer
  and the answer to a delayed offer can mix if and only if the RTP path runs, the RTP task may take a packet, or a sender
  or receiver at a packet has yet to read something that counts (`MixesIffExposed`).
- Scale search: its binary search presumes that a smaller scale fits where a larger one does, which fails when a side
  vanishes. It finds the largest fitting scale whenever both sides are at most half the capacity in pixels, which the decoder's
  storage guard gives (`P4Scale.ChosenIsLargest`, `DecodedPicturesHaveRoom`); without that it can miss (`SliverIsMissed`).
- DC blocker: samples in a range that holds 0 are safe over every run exactly when the range spans at most 32767
  (`DcBlocker.DefinedIff`).

## Model

| member | source | states |
|---|---|---|
| JitterBuffer.RtpJitterBuffer.constructor | esphome/components/voip_stack/rtp_jitter_buffer.h:84-97 | the fields and slot regions of a fresh buffer: its value is the empty one for the clamped configuration |
| JitterBuffer.RtpJitterBuffer.Reset | esphome/components/voip_stack/rtp_jitter_buffer.h:124-132 | empties every slot, restarts buffering and clears the counters |
| JitterBuffer.RtpJitterBuffer.KeepWindowFrom | esphome/components/voip_stack/rtp_jitter_buffer.h:106-122 | keeps exactly the slots inside the window, recounts them and counts the discarded, in place over the flat storage |
| JitterBuffer.RtpJitterBuffer.Push | esphome/components/voip_stack/rtp_jitter_buffer.h:134-212 | computes the value function of a push, storage bytes included; other slots keep their bytes |
| JitterBuffer.RtpJitterBuffer.Read | esphome/components/voip_stack/rtp_jitter_buffer.h:214-268 | computes the value function of a read and copies exactly the delivered bytes out |
| JitterTheorems.PushKeeps | esphome/components/voip_stack/rtp_jitter_buffer.h:134-212 | a push keeps the invariant, and adds its frame to what is held exactly when it returns true, up to what it counts as discarded; a refused push leaves slots and window alone |
| JitterTheorems.ReadKeeps | esphome/components/voip_stack/rtp_jitter_buffer.h:214-268 | a read keeps the invariant and takes out exactly the frame it delivers or counts as discarded |
| JitterTheorems.RunKeeps | esphome/components/voip_stack/rtp_jitter_buffer.h:106-268 | the invariant and the accounting hold over every run from every good state |
| JitterTheorems.Conservation | esphome/components/voip_stack/rtp_jitter_buffer.h:106-122 | since the last reset, accepted pushes = delivered frames + discarded frames + held frames, modulo the 32-bit counter, for every run and slot count |
| JitterTheorems.PlayoutIsAccepted | esphome/components/voip_stack/rtp_jitter_buffer.h:186-193 | what is played is a sub-multiset of what was accepted: bytes and metadata unchanged, nothing twice |
| JitterTheorems.GuardsAlwaysTaken | esphome/components/voip_stack/rtp_jitter_buffer.h:176-183 | in every run the `valid_count_ > 0` guards hold where they are evaluated, that of `push` after it has moved the window; and buffering implies fewer frames than the prebuffer |
| JitterWindow.CountIsSize | esphome/components/voip_stack/rtp_jitter_buffer.h:185-195 | `valid_count_` is the size of the map the slots stand for |
| JitterWindow.PushRefines | esphome/components/voip_stack/rtp_jitter_buffer.h:134-212 | for slot counts that divide 65536 a push is the map operation: late, duplicate, insert, or move the window and restrict |
| JitterWindow.ReadRefines | esphome/components/voip_stack/rtp_jitter_buffer.h:214-268 | a read is the map operation: deliver or drop the entry at `next`, or report it missing |
| JitterWindow.NoPushCollides | esphome/components/voip_stack/rtp_jitter_buffer.h:172-183 | for slot counts that divide 65536 no push finds its slot taken by another sequence number |
| JitterWindow.CollisionIffNotDividing | esphome/components/voip_stack/rtp_jitter_buffer.h:172-183 | such a collision is reachable if and only if the slot count does not divide 65536 |
| JitterOrder.PlayoutInOrder | esphome/components/voip_stack/rtp_jitter_buffer.h:229-268 | while playout stays on, delivered frames have strictly increasing unwrapped sequence numbers |
| JitterOrder.DeliversWithinWindow | esphome/components/voip_stack/rtp_jitter_buffer.h:229-268 | with a frame held and no push between, fewer than slot-count MISSING reads come before the next frame |
| JpegTables.FindStandardTable | esphome/components/voip_stack/rtp_jpeg.cpp:92-116 | the walk by counts finds each standard table, whole, and no other identifier |
| JpegTables.ConsumeStandardTables | esphome/components/voip_stack/rtp_jpeg.cpp:118-161 | a DHT segment is consumed exactly if it is a sequence of complete, new, standard tables |
| JpegTables.CountsAddUp | esphome/components/voip_stack/rtp_jpeg.cpp:62-90 | each standard table is as long as its sixteen counts say |
| JpegTables.StandardTablesConsumed | esphome/components/voip_stack/rtp_jpeg.cpp:62-90 | the printed DHT segment holds each standard table once |
| JpegFormat.BoundedWriter.Append | esphome/components/voip_stack/rtp_jpeg.cpp:24-47 | appends all of its bytes or, when they do not fit, none |
| JpegFormat.WriteInterchangeHeader | esphome/components/voip_stack/rtp_jpeg.cpp:163-208 | writes the whole header, and fails exactly when it does not fit or cannot be described |
| JpegFormat.BuildFragmentHeader | esphome/components/voip_stack/rtp_jpeg.cpp:388-425 | writes the RTP/JPEG header of a fragment, fails exactly on frames, offsets or buffers that cannot hold it, and touches no byte beyond |
| JpegParser.ReadQuantizerSegment | esphome/components/voip_stack/rtp_jpeg.cpp:284-301 | the DQT loop: 8-bit tables 0 and 1, each once |
| JpegParser.FindLastEoi | esphome/components/voip_stack/rtp_jpeg.cpp:359-371 | the search from the end finds the last end-of-image marker behind the scan start |
| JpegParser.LastEoi | esphome/components/voip_stack/rtp_jpeg.cpp:359-371 | the result is an end-of-image marker and no later one exists; none means none |
| JpegParser.ParseJpegForRtp | esphome/components/voip_stack/rtp_jpeg.cpp:252-386 | the marker loop computes the parse, with the error of the first segment that is refused |
| JpegRoundTrip.ParsedIsDescribable | esphome/components/voip_stack/rtp_jpeg.cpp:252-386 | every accepted frame has the sizes, type and tables a fragment header needs, and its scan runs up to the last end-of-image marker of the file |
| JpegRoundTrip.SegmentRead | esphome/components/voip_stack/rtp_jpeg.cpp:262-282 | the parser reads a well-formed segment and goes on right behind it |
| JpegRoundTrip.RebuiltParses | esphome/components/voip_stack/rtp_jpeg.cpp:163-208 | header, scan and end marker parse back to exactly the tables, size in blocks, restart interval, type and scan they were built from, for every non-empty scan |
| JpegReassembly.MakeQuantizers | esphome/components/voip_stack/rtp_jpeg.cpp:210-220 | the tables of a static Q have 128 entries, none zero |
| JpegDepacketizer.MakeStaticQuantizers | esphome/components/voip_stack/rtp_jpeg.cpp:210-220 | the loop computes them entry by entry |
| JpegDepacketizer.ValidQuantizers | esphome/components/voip_stack/rtp_jpeg.cpp:222-230 | true exactly if no entry is zero |
| JpegDepacketizer.MarkSets | esphome/components/voip_stack/rtp_jpeg.cpp:485-497 | setting one bit of the validity bitmap marks one Q and no other |
| JpegDepacketizer.RtpJpegDepacketizer.SetQuantizationCache | esphome/components/voip_stack/rtp_jpeg.cpp:456-464 | a new or too small store ends the session; the same one changes nothing |
| JpegDepacketizer.RtpJpegDepacketizer.FindCached | esphome/components/voip_stack/rtp_jpeg.cpp:466-478 | finds exactly the tables learnt for a Q |
| JpegDepacketizer.RtpJpegDepacketizer.CacheOrValidate | esphome/components/voip_stack/rtp_jpeg.cpp:480-499 | a Q learnt before must come with the same tables; a new one is stored in its own region and no other; without a cache or outside 128..254 nothing is stored |
| JpegDepacketizer.RtpJpegDepacketizer.ChooseQuantizers | esphome/components/voip_stack/rtp_jpeg.cpp:541-594 | tables made from Q, carried in the packet (128 bytes, or 64 doubled), or learnt; what is learnt stays even if the packet is dropped later |
| JpegDepacketizer.RtpJpegDepacketizer.StartFrame | esphome/components/voip_stack/rtp_jpeg.cpp:427-454 | writes the header for a frame and takes over its fields exactly if type, sizes and tables are what a header can say and it fits; otherwise changes nothing |
| JpegDepacketizer.RtpJpegDepacketizer.AppendFragment | esphome/components/voip_stack/rtp_jpeg.cpp:616-634 | puts the fragment behind what the buffer holds; the marker completes the frame with FF D9 |
| JpegDepacketizer.RtpJpegDepacketizer.Push | esphome/components/voip_stack/rtp_jpeg.cpp:501-634 | computes the value function of a push, and the buffer holds the completed frame |
| JpegDepacketizer.RtpJpegDepacketizer.ResetSession | esphome/components/voip_stack/rtp_jpeg.cpp:649-652 | forgets the frame under way and every table learnt |
| JpegTheorems.CompleteIsWhole | esphome/components/voip_stack/rtp_jpeg.cpp:501-634 | soundness under loss, reordering and duplication: a completed frame is the header of one offset-0 packet and the gap-free fragments since, all under the same timestamp, type, Q, size and restart interval, within capacity |
| JpegTheorems.WholeIsComplete | esphome/components/voip_stack/rtp_jpeg.cpp:501-634 | completeness: such a run completes, whatever went before it |
| JpegTheorems.CompletesIffWhole | esphome/components/voip_stack/rtp_jpeg.cpp:501-634 | a packet completes a frame if and only if it ends such a run |
| JpegTheorems.SameQSameTables | esphome/components/voip_stack/rtp_jpeg.cpp:480-499 | frames of one session with the same Q in 128..254 carry the same tables (RFC 2435 section 3.1.8) |
| JpegDelivery.DeliveredIff | esphome/components/voip_stack/rtp_jpeg.cpp:388-634 | a frame cut into any non-empty fragments comes out whole with the last one, from any receiver state, exactly if its tables have no zero and there is room |
| JpegDelivery.OthersIncomplete | esphome/components/voip_stack/rtp_jpeg.cpp:627 | every earlier fragment is taken in without completing anything |
| JpegDelivery.RoundTrip | esphome/components/voip_stack/rtp_jpeg.cpp:252-634 | parse, fragment, reassemble, parse: same scan, tables, restart interval and type, size rounded up to whole blocks, even if the scan holds FF D9 |
| VideoSourceTheorems.RunKeepsInv | esphome/components/esp_h264_video_source/esp_h264_video_source.cpp:666-751 | who owns which buffer is kept by every step of every thread |
| VideoSourceTheorems.BuffersAreExclusive | esphome/components/esp_h264_video_source/esp_h264_video_source.cpp:583-664 | in every reachable state each TX and each encoded slot has at most one owner |
| VideoSourceTheorems.PublishesOnlyCurrentFrames | esphome/components/esp_h264_video_source/esp_h264_video_source.cpp:640-664 | a frame is handed over only under the control mutex, with the gate open, a callback set and its generation current |
| VideoSourceTheorems.IdleCheckIsSound | esphome/components/esp_h264_video_source/esp_h264_video_source.cpp:771-783 | five reads at five times, each finding its word free with the gate shut, mean that nobody owns or can come to own a buffer from the last read on |
| VideoSourceTheorems.NeverFreesABufferInUse | esphome/components/esp_h264_video_source/esp_h264_video_source.cpp:107-123 | when shutdown frees the buffers, and ever after, nobody owns one and the worker is gone |
| VideoSourceTheorems.StopIsWokenUp | esphome/components/esp_h264_video_source/esp_h264_video_source.cpp:785-826 | from a state in which a stop has to wait, every undisturbed run that ends idle with no thread left in an idle check ends with the semaphore given |
| VideoSourceWakeUp.WakeUpLostIffDiscarded | esphome/components/esp_h264_video_source/esp_h264_video_source.cpp:785-826 | on every run with the gate shut on which nobody else takes the semaphore, a stop that has to wait ends up idle without the give if and only if the exiting worker's discard freed the last word and no callback arrived after it |
| VideoSourceTheorems.FreshGiveMeansIdle | esphome/components/esp_h264_video_source/esp_h264_video_source.cpp:255-270 | if the reads passed by idle checks under way still hold at the drain, a given semaphore means idle for as long as the gate stays shut |
| VideoSourceStale.DrainedGiveMeansIdle | esphome/components/esp_h264_video_source/esp_h264_video_source.cpp:255-270 | in particular if no thread is past the first read of an idle check at the drain |
| VideoSourceStale.MisleadsIffPastRead | esphome/components/esp_h264_video_source/esp_h264_video_source.cpp:810-819 | in a reachable drained state with a callback between admission and claim, a gate-shut run gives the semaphore with an owner present if and only if a consumer or callback is past the first read of an older idle check |
| VideoSourceTheorems.StaleGiveIsPossible | esphome/components/esp_h264_video_source/esp_h264_video_source.cpp:810-819 | a reachable state in which the next step gives the semaphore although a callback is about to claim a slot |
| VideoSourceTheorems.RestartLosesTheWakeUp | esphome/components/esp_h264_video_source/esp_h264_video_source.cpp:810-819 | a run whose only disturbance is that the gate opens again, on which the last callback leaves without a give |
| VideoSourceTheorems.SecondStopTakesTheWakeUp | esphome/components/esp_h264_video_source/esp_h264_video_source.cpp:255-270 | a run on which a second stop drains the give the first one waits for |
| VideoSourceTheorems.WorkerExitLosesTheWakeUp | esphome/components/esp_h264_video_source/esp_h264_video_source.cpp:915-922 | a run on which the exiting worker frees the last slot without a give |
| P4Renderer.RunKeeps | esphome/components/p4_video_renderer/p4_video_renderer.cpp:1349-1441 | the front/pending protocol is kept by every step of the decoder, `loop`, LVGL refreshes and `set_video_active(false)` |
| P4Renderer.DecoderWritesTheBackOnly | esphome/components/p4_video_renderer/p4_video_renderer.cpp:1376-1400 | while the decoder writes, nothing is pending, the surface is the back one, it is not shown, no refresh reads it and no hardware copy uses it, on both display paths |
| P4Renderer.ReleaseNeverFails | esphome/components/p4_video_renderer/p4_video_renderer.cpp:655-660 | the compare-and-swap after a hardware copy always succeeds: its failure branch is dead |
| P4Renderer.FramesAreConserved | esphome/components/p4_video_renderer/p4_video_renderer.cpp:166-237 | every published frame is presented, dropped or still pending |
| P4Renderer.PresentedInOrder | esphome/components/p4_video_renderer/p4_video_renderer.cpp:203-231 | frames are presented in decoding order, none twice, and what is shown stays intact |
| P4Scale.FitScale | esphome/components/p4_video_renderer/p4_video_renderer.cpp:534-569 | the binary search computes the scale chosen |
| P4Scale.ChosenIsLargest | esphome/components/p4_video_renderer/p4_video_renderer.cpp:536-567 | the largest scale that fits, or none only if none fits, for pictures with sides at most half the capacity |
| P4Scale.DecodedPicturesHaveRoom | esphome/components/p4_video_renderer/p4_video_renderer.cpp:1387-1390 | the decoder's storage guard gives that room |
| P4Scale.SliverIsMissed | esphome/components/p4_video_renderer/p4_video_renderer.cpp:552-564 | without it a picture that fits can be missed |
| P4Renderer.EveryFrameIsRefreshed | esphome/components/p4_video_renderer/p4_video_renderer.cpp:340-363 | on the LVGL path every presented frame but the one in flight has been drawn, in order, and a refresh sees one whole frame |
| MediaEpoch.RunKeeps | esphome/components/voip_stack/sip_transport.cpp:49-64 | scopes, negotiations outside them, dialogs, readers and packets keep the invariant in every interleaving that meets none of the three guards |
| MediaEpoch.OddMeansOpen | esphome/components/voip_stack/sip_transport.cpp:49-64 | in those runs the epoch word is odd exactly while a scope is open, no answer opens a proposal inside a REFER scope, in between the live configuration is the last stable one, and it is written outside the scopes only while the RTP path does not run and the RTP task takes no packet |
| MediaEpoch.PacketsUseOneConfiguration | esphome/components/voip_stack/sip_transport.cpp:2049-2100 | in those runs format, payload type and address of every packet sent, and format and address check of every packet received, come from one stable configuration in force while it was made |
| MediaEpoch.OnlyCommitsAndNegotiationsChange | esphome/components/voip_stack/sip_refer.cpp:13-27 | proposals and uncommitted REFER scopes leave the configuration as it was; only a commit and a negotiation outside the scopes change it |
| MediaGlare.RetryInScopeMixes | esphome/components/voip_stack/sip_transport.cpp:3437-3455 | from every state in which a REFER scope sends the retry, a run opens a proposal inside a later REFER scope and receives a packet in the half-parsed answer's format |
| MediaGlare.MixesIffRetryWaits | esphome/components/voip_stack/sip_refer.cpp:255-258 | after a REFER scope is pumped, some orderly continuation mixes configurations in a packet if and only if a retry of our own re-INVITE was waiting and media were active |
| MediaGlare.MixesIffOutstanding | esphome/components/voip_stack/sip_refer.cpp:278-281 | the same after a commit, if and only if our own re-INVITE is outstanding on the dialog it retires |
| MediaGlare.GlareMixesConfigurations | esphome/components/voip_stack/sip_transport.cpp:1843 | from the start of an audio call, a run that ends with an even epoch inside a scope and a packet built from no stable configuration |
| MediaLate.MixesIffExposed | esphome/components/voip_stack/sip_sdp.cpp:575-579 | where a 2xx to our own INVITE, a new call's offer or the answer to a delayed offer is taken, some message with some orderly continuation mixes configurations in a packet if and only if the RTP path runs, the RTP task may take a packet, or a sender or receiver at a packet has yet to read something that counts |
| MediaLate.ExposedMixes | esphome/components/voip_stack/sip_transport.cpp:3690-3697 | from every such state, such a message and continuation |
| MediaLate.LateAnswerMixesConfigurations | esphome/components/voip_stack/sip_transport.cpp:2523-2526 | from the start, a call we originated, its ACK record lapsed, another 2xx, and a packet in the old format to the new address at an epoch that never moved |
| SipFraming.SipContentLength | esphome/components/voip_stack/sip_message.cpp:176-211 | the header scan over the whole buffer equals the scan of the headers alone, up to the blank line or, without one, the end; a bad or repeated length is refused |
| SipFraming.ReadNumber | esphome/components/voip_stack/sip_message.cpp:197-204 | decimal digits up to 8192, otherwise nothing |
| SipFraming.SipTcpFlow.FrameBuffer | esphome/components/voip_stack/sip_transport.cpp:4014-4042 | need more, reject, or one complete message at the front of the buffer |
| SipFraming.SipTcpFlow.HandleStream | esphome/components/voip_stack/sip_transport.cpp:3983-4047 | one wake-up of the receiver: append, overflow check, then take messages while there are any |
| SipFramingTheorems.FrameInFront | esphome/components/voip_stack/sip_transport.cpp:4014-4042 | a verdict on the front of a buffer does not change when more bytes arrive |
| SipFramingTheorems.FeedIsDrain | esphome/components/voip_stack/sip_transport.cpp:3983-4047 | however the stream is cut, as long as the buffer never overflows, what is taken is what the whole stream gives |
| SipFramingTheorems.CutsDoNotMatter | esphome/components/voip_stack/sip_transport.cpp:3983-4047 | two cuts of the same bytes dispatch the same messages, reject at the same point and leave the same rest |
| SipFramingTheorems.DrainConserves | esphome/components/voip_stack/sip_transport.cpp:4043-4045 | no byte is lost or invented, and each message dispatched is framed as itself |
| SipFramingTheorems.ConcatenationComesBack | esphome/components/voip_stack/sip_transport.cpp:4014-4046 | well-framed messages come back exactly from their concatenation |
| SipFramingTheorems.WrittenIsFramed | esphome/components/voip_stack/sip_message.cpp:176-211 | a message written with plain header lines and its true Content-Length is framed as exactly itself, whatever follows |
| UdpTransaction.Transaction.Remember | esphome/components/voip_stack/sip_transport.cpp:1282-1291 | a fresh record: first retransmission after T1, deadline after 64*T1 |
| UdpTransaction.Transaction.PumpAt | esphome/components/voip_stack/sip_transport.cpp:1321-1358 | one pump: time out, wait, suspend, or retransmit and back off |
| UdpTransaction.WrappedCompare | esphome/components/voip_stack/sip_message.cpp:158-160 | `time_reached` orders times less than 2^31 ms apart across the wrap of the clock |
| UdpTransaction.Backoff | esphome/components/voip_stack/sip_transport.cpp:1354-1357 | the interval doubles up to T2, and ten retransmissions use up the time before the deadline |
| UdpTransaction.EverySchedule | esphome/components/voip_stack/sip_transport.cpp:1321-1358 | on every schedule with gaps under 2^31 ms: interval in {500, 1000, 2000, 4000}, next time not past the deadline, at most ten retransmissions, timed out and cleared at exactly the first pump at or after 64*T1 |
| UasTransport.SipTransport.RememberCompletedResponse | esphome/components/voip_stack/sip_transport.cpp:2422-2471 | caches a final response to an INVITE unless the dialog's own one still awaits its ACK |
| UasTransport.SipTransport.SendResponse | esphome/components/voip_stack/sip_request_response.cpp:211-244 | a final response is cached for the dialog's last INVITE |
| UasTransport.SipTransport.DeferByeUntilAck | esphome/components/voip_stack/sip_transport.cpp:2342-2354 | defers exactly when the dialog's cached 2xx awaits its ACK |
| UasTransport.SipTransport.SendByeUnlocked | esphome/components/voip_stack/sip_transport.cpp:2305-2340 | defers the hang-up or puts the BYE on the wire |
| UasTransport.SipTransport.ReceiveAck | esphome/components/voip_stack/sip_transport.cpp:3823-3900 | a matching ACK completes the INVITE, then a deferred hang-up goes out or media open; a late one expires the record |
| UasTransport.SipTransport.PumpInvite | esphome/components/voip_stack/sip_transport.cpp:1395-1409 | at 64*T1 the wait for the ACK ends with a BYE if the dialog is still that one |
| UasTransport.SipTransport.CloseTcpDialog | esphome/components/voip_stack/sip_transport.cpp:574-623 | loss of the connection drops the records tied to it and the dialog on it |
| UasTransport.SipTransport.HandleReinvite | esphome/components/voip_stack/sip_transport.cpp:2817-2872 | 481 before media, 500 while an ACK is awaited or for an old CSeq, otherwise the verdict of the negotiation |
| UasDialog.NoEarlyBye | esphome/components/voip_stack/sip_transport.cpp:2342-2354 | in every run whose answers are not given while the response cache is blocked, BYE follows the ACK, 64*T1, or loss of the connection |
| UasDialog.EarlyIffBlocked | esphome/components/voip_stack/sip_transport.cpp:2436-2443 | from every state the invariant admits, answering and hanging up sends BYE early if and only if the cache was blocked |
| UasDialog.RefusedReinviteBlocks | esphome/components/voip_stack/sip_transport.cpp:2842-2848 | a run that blocks the cache: an INVITE in the early dialog, refused with a cached 481 |
| ReferTransport.SipTransport.SwapWithCandidate | esphome/components/voip_stack/sip_refer.cpp:179-225 | exchanges the live dialog and negotiation with the candidate's |
| ReferTransport.SipTransport.EnterScope | esphome/components/voip_stack/sip_refer.cpp:13-18 | opens a scope: the candidate is in the live fields |
| ReferTransport.SipTransport.LeaveScope | esphome/components/voip_stack/sip_refer.cpp:20-27 | closes it: swapped back unless committed |
| ReferTransport.SipTransport.HandleCandidate | esphome/components/voip_stack/sip_transport.cpp:3795-3802 | whatever the candidate's message does in its scope, the owner's dialog, negotiation and media flag are as before |
| ReferTransport.SipTransport.RememberTransaction | esphome/components/voip_stack/sip_transport.cpp:1262-1293 | a NOTIFY takes the first slot if free, else the second |
| ReferTransport.SipTransport.NotifyRefer | esphome/components/voip_stack/sip_refer.cpp:41-48 | a NOTIFY goes out only while the transferor can be reached |
| ReferTransport.SipTransport.EndReferInviteUsage | esphome/components/voip_stack/sip_refer.cpp:50-60 | the owner's INVITE usage ends, the transfer goes on |
| ReferTransport.SipTransport.Cancel | esphome/components/voip_stack/sip_refer.cpp:62-69 | a live transfer is reported as 487 and its candidate told to end |
| ReferTransport.SipTransport.FinishFailedRefer | esphome/components/voip_stack/sip_refer.cpp:71-82 | the failure is reported, and an owner whose usage had ended is reset |
| ReferTransport.SipTransport.ActOnCandidate | esphome/components/voip_stack/sip_refer.cpp:264-308 | acceptance swaps the dialogs for good and ends the owner's, or ends the candidate's if its media do not suit; failure is reported |
| ReferTransport.SipTransport.Pump | esphome/components/voip_stack/sip_refer.cpp:249-335 | one pump of a transfer |
| Refer.AtMostTwoNotifies | esphome/components/voip_stack/sip_refer.cpp:84-177 | over every run each transfer sends 100 Trying first and at most one more NOTIFY, and no occupied slot is overwritten |
| Refer.OneByeIffMediaActive | esphome/components/voip_stack/sip_refer.cpp:266-298 | with the owner up, acceptance ends exactly one dialog, the one not live afterwards, if and only if the owner's media are active |
| Refer.CandidateLeavesOwnerAlone | esphome/components/voip_stack/sip_refer.cpp:13-27 | swapping in, changing everything and swapping out leaves the owner's dialog, negotiation and media as they were; a deferred provisional response is lost exactly if the candidate's call ends |
| Refer.OneEnd | esphome/components/voip_stack/sip_refer.cpp:62-69 | every event of a transfer tells one dialog to end or none, and one exactly for a cancelled, orphaned, refused or accepted candidate as the guards of `pump_refer_` and `cancel_refer_` say, which makes the transfer retire |
| Refer.AtMostOneEnd | esphome/components/voip_stack/sip_refer.cpp:259-298 | over every run of cancelling, orphaning, refusal and acceptance each transfer's own actions tell at most one dialog to end, and none before it retires |
| Refer.AcceptanceForgotten | esphome/components/voip_stack/sip_refer.cpp:264-268 | a run from the start that loses an acceptance: media closed by a failed worker while the call is up |
| Refer.RetiredCandidateDropsResponse | esphome/components/voip_stack/sip_transport.cpp:1241 | a run on which the end of a retired candidate's call clears a new call's deferred provisional response |
| AudioPayloads.RtpAudioPayloads.Add | esphome/components/voip_stack/rtp_audio_payloads.h:28-36 | adds a mapping, confirms one, or refuses: invalid, conflicting or full |
| AudioPayloads.RtpAudioPayloads.Find | esphome/components/voip_stack/rtp_audio_payloads.h:38-46 | the format of a payload type |
| AudioPayloads.RtpAudioPayloads.Equals | esphome/components/voip_stack/rtp_audio_payloads.h:57-66 | true if and only if the two tables are the same map |
| AudioPayloads.AddedIsInsertion | esphome/components/voip_stack/rtp_audio_payloads.h:28-36 | adding is map insertion |
| AudioPayloads.SameMapIff | esphome/components/voip_stack/rtp_audio_payloads.h:57-66 | as many entries, each found in the other table, is map equality, hence symmetric |
| AudioPayloads.PcmReceiveConverter.PrepareAdditional | esphome/components/voip_stack/pcm_receive_converter.h:26-65 | all new converters or none; it fails only for a wrong target, an unsupported format, a full table or a failed allocation |
| AudioPayloads.PcmReceiveConverter.Prepare | esphome/components/voip_stack/pcm_receive_converter.h:20-24 | starts over for a new target |
| AudioPayloads.ConvertibleIsPrepared | esphome/components/voip_stack/pcm_receive_converter.h:33-59 | convertible payloads never overflow the converter table |
| SdpSelection.SelectCodecs | esphome/components/voip_stack/sip_sdp.cpp:435-516 | the rtpmap loop: conflicting mappings reject, receive mappings are recorded, choices follow eligibility |
| SdpSelection.TransmitsLeastRank | esphome/components/voip_stack/sip_sdp.cpp:496-503 | the transmit choice is an eligible mapping of least m-line rank, and there is one if any is eligible |
| SdpSelection.ReceiveIsRecorded | esphome/components/voip_stack/sip_sdp.cpp:483-499 | the receive table has distinct payload types and holds the selected one |
| SdpSelection.AcceptedServesTheSink | esphome/components/voip_stack/sip_sdp.cpp:533-576 | the accepted table maps the selected payload type to the selected format, and each PCM entry is the decoded sink format or converts to it |
| SdpSelection.LearnRemoteRtp | esphome/components/voip_stack/sip_sdp.cpp:517-576 | the loop, the rejections behind it, the choice of what is played out and the table to receive under |
| SdpSelection.RefusedIff | esphome/components/voip_stack/sip_sdp.cpp:517-555 | a line without conflicting mappings is refused if and only if it names no port or address, no direction is wanted, a wanted one has no eligible mapping, a sendrecv line has none that serves both, or the packet times differ |
| SdpSelection.NegotiatedIsPrepared | esphome/components/voip_stack/sip_transport.cpp:910-917 | so preparing the converters for what was negotiated fails only for want of memory |
| SdpAnswer.RemoteMediaShape.Append | esphome/components/voip_stack/sip_transport.h:574-583 | keeps a media line packed behind the others, or records the overflow of eight lines or 65535 bytes |
| SdpAnswer.RemoteMediaShape.Get | esphome/components/voip_stack/sip_transport.h:585-590 | the packed line that was appended |
| SdpAnswer.Capture | esphome/components/voip_stack/sip_sdp.cpp:36-63 | the media lines of the offer and the first audio and video among them |
| SdpAnswer.BuildSections | esphome/components/voip_stack/sip_sdp.cpp:304-320 | one section for each offered line |
| SdpAnswer.AudioIsTheNegotiatedLine | esphome/components/voip_stack/sip_sdp.cpp:359-386 | the recorded audio line is the line whose codecs were negotiated |
| SdpAnswer.AnswerMatchesOffer | esphome/components/voip_stack/sip_sdp.cpp:297-321 | one answer line for each offered media line, in order, of the same type, accepted only at the recorded audio and video line and otherwise the same line with port 0 |
| SdpAnswer.PayloadsAreDistinct | esphome/components/voip_stack/sip_sdp.cpp:277-284 | the payload types of the audio answer are distinct |
| SdpAnswer.AnswersOfferedPayloads | esphome/components/voip_stack/sip_sdp.cpp:277-284 | and, answering an offer, all offered |
| DcBlocker.DcBlockerState.Process | esphome/components/voip_stack/audio_core_audio_utils.h:119-131 | one filter step, where its 32-bit arithmetic is defined |
| DcBlocker.EstimateStays | esphome/components/voip_stack/audio_core_audio_utils.h:119-131 | over every run the implied DC estimate stays between the smallest and the largest input so far, 0 included |
| DcBlocker.OutputBound | esphome/components/voip_stack/audio_core_audio_utils.h:119-131 | the output stays within the spread of the inputs, at most twice their peak |
| DcBlocker.DefinedIff | esphome/components/voip_stack/audio_core_audio_utils.h:123-126 | no run over a range that holds 0 overflows if and only if the range spans at most 32767 |

## Left out

- Sockets, select, FreeRTOS tasks, LVGL, PPA, JPEG and H.264 hardware, Opus and the resampler are foreign calls: abstract steps here, or results that come in from outside.
- Weak memory: atomics are interleaved under sequential consistency.
- Python configuration, actions, entities, the call state machine, `video_rtp.cpp` and the phonebook: not modelled.
- Null pointers: buffers are given; only the null destination of the jitter buffer's read and the missing table cache are modelled.
- JpegDepacketizer.RtpJpegDepacketizer.Push: the caller keeps one output buffer and does not write to what a frame under way has put there; the fields that only name the frame are one record.
- JpegParser.ParseJpegForRtp: what a failed parse leaves in the frame view is not described, only the error.
- VideoSourceStale.MisleadsIffPastRead: states with a callback between admission and claim, no controller at work, and a worker that runs and is past no read of its own; what a stale check of the worker can do depends on the frames still queued, which only the worker takes. FreshGiveMeansIdle and DrainedGiveMeansIdle have no such condition.
- VideoSourceTheorems.StopIsWokenUp: the three-second limit of the wait is not modelled; the wake-up of the main loop by release callbacks is not either.
- P4Renderer.DecoderWritesTheBackOnly: the JPEG paths only; on the H.264 path the same claim is not an invariant, since pending is cleared before the front moves. A refresh that the renderer did not ask for is taken to run between two calls of `loop`, on the same task.
- MediaEpoch.PacketsUseOneConfiguration: for runs that meet none of the guards, and with no reader at one packet while the 32-bit epoch goes all the way round. `send_answer` and an INVITE without a body (media alone) and `set_remote` (the address alone, from any task) fall under the same guard as the answers that write both, without an exact condition of their own.
- MediaGlare.MixesIffRetryWaits: no reader is within ten changes of a turn of the 32-bit epoch. Whether a retry is due and can be sent, and which response arrives, come in with the events.
- MediaLate.MixesIffExposed: the same distance from a turn. Whether a 2xx has the Call-ID, CSeq, branch, tags and peer of our INVITE, and whether it matches the record of its ACK, comes in with the event; an answer that is refused writes nothing.
- SipFraming.SipTcpFlow.HandleStream: handling a message is taken not to close the connection it came on; `recv` errors and peer close only end a batch.
- UdpTransaction.EverySchedule: the provisional-response retry record, which has its own limits, is not modelled.
- UasDialog.NoEarlyBye: time is not wrapped here; whether the peer, transport and tags of an ACK match comes in as one verdict. Pending CANCELs and provisional responses are not modelled. That a deferred hang-up is ever sent is not claimed: a late ACK clears the record.
- UasTransport.SipTransport.SendByeUnlocked: the call named is the dialog's own and the request reaches the wire; a transfer under way, which a hang-up cancels first, is the subject of `Refer`.
- UasTransport.SipTransport.CloseTcpDialog: a dialog whose transfer outlives it (`end_refer_invite_usage_`) is the subject of `Refer`.
- ReferTransport.SipTransport.HandleCandidate: of the fields a scope does not swap, the deferred provisional response and, in `MediaGlare`, our own re-INVITE are modelled; the transport's event marks are not.
- ReferTransport.SipTransport.Pump: the records kept for replaying responses are not modelled, and our own re-INVITE that the same pump serves is in `MediaGlare`.
- Refer.AtMostOneEnd: counts what the transfer itself does. A BYE that the candidate's own handler sends inside its scope, after a CANCEL that crossed its 2xx or for media that do not suit, is not in the log.
- Refer.AtMostTwoNotifies: the checks of the REFER request itself, and the records kept for replaying responses, are not modelled; the fields exchanged that no decision looks at are one value.
- SdpSelection.SelectCodecs: takes each rtpmap with the local formats that match it and the flow that applies to it; parsing attributes and matching encodings are not modelled.
- SdpAnswer.AnswerMatchesOffer: the text of the audio and video sections is given; that they start with their m-line is assumed of them.
- Delivery order across a re-buffering episode of the jitter buffer, and capture order through the two H.264 TX slots, are not claimed: the code does not keep them.
