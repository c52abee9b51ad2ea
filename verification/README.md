# LMS200 driver: verified model

The repository drives a SICK LMS200 laser scanner over a byte-framed serial line, following the
SICK *Telegram Listing LMS2xx* 8007954/Q501. This project models its protocol core in Dafny and
proves what the driver relies on, for every byte stream, every way of cutting it into reads,
every event order and every run.

| Dafny modules | what they model |
|---|---|
| `Bytes`, `Crc` | byte strings and the LMS checksum, on bits |
| `IncrementalScan` | any parser that decides on a prefix and never revises a decision |
| `Framing`, `FramingTheorems`, `FramingAccounts` | `encode` and the Python `Framer` |
| `NativeDecoder`, `NativeTheorems`, `NativeAttribution` | the C++ `Decoder` |
| `Handshake`, `HandshakeTheorems`, `NativeSequence` | the native handshake and `run_sequence` |
| `Commands`, `Simulator` | command builders, reply checks, the simulated scanner |
| `StateMachine` | `Device`: event queue, reader and `command` |
| `Trace` | what a run of `initialize` may write, as an account of its trace |
| `Initialization`, `InitializationTheorems` | `connect`, `initialize`, closing, and a second run |
| `StatusNode`, `StatusNodeTheorems` | the ROS 2 `Accumulator` and the node's latch |
| `Recording` | recorder, timing index and replay |
| `Ros2Controller` | the one-packet gate and the controller loop |
| `Fanout` | bounded queues to subscribers and to the recorder |

## Main results

- **Framing refines a one-shot scan.** However a stream is cut, the framer's events, candidates,
  buffer, offset and statistics are those of one feed; with the expire loop behind it, its events
  are those of a plain left-to-right scan whose only notion of a telegram is "some payload and
  address encode to these bytes" (`FeedFragmented`, `TelegramsAreAccepted`, `CaptureIsReference`).
  Bytes are conserved in every run of feeds and expires, and any line of encoded telegrams and
  control bytes is read back exactly (`BytesConserved`, `RoundTrip`).
- **The checksum.** It is additive, its zero step is injective, and it detects every single-byte
  change at any length. Two adjacent changed bytes are *not* always detected: `PairCollision` and,
  for whole telegrams with their checksum bytes, `PairDamage` give the exact condition for all
  inputs, and `PairCanEscape` a real telegram.
- **Two parsers, one behaviour.** The C++ decoder and the Python framer agree after any feeds and
  after `finish` against the expire loop (`LiveBisimilar`, `FinishBisimilar`).
- **Handshake.** Success after any capture is characterised by an if-and-only-if over the events,
  is independent of fragmentation and of terminal recovery, and has raw evidence: 06 at some
  p at or after the boundary, a complete valid telegram at some q > p (`HandshakeOutcome`,
  `HandshakeFragmentation`, `FinishChangesNoHandshake`, `SuccessHasRawEvidence`).
- **Native sequence.** For every IO behaviour, with exceptions anywhere, the trace has the legal
  shape, Stop is sent exactly once exactly when Start may have arrived, and completion is
  characterised by the trace (`RunSequence`, `LegalTraceMeaning`).
- **`command` and `initialize`.** Bounded writes, bounded waiting, evidence behind the drain of the
  last attempt (`Device.Execute`). Against any scanner, every run leaves a trace of telegrams and
  vouched-for replies: what is written is what the settings call for, in a safe order, the stream
  starts only behind a readback that matches, and every failing run is cleaned up (`Initialize`,
  `SafeRunMeaning`, `CleanupMeaning`). Against the simulated scanner from every legal
  starting state, the exact final state, and nothing to change in a second run
  (`Initialize`, `InitializeTwice`).
- **Evidence and data flow.** Replay returns what was recorded under its own timestamps; the ROS 2
  controller writes at most one request and only behind all its gates; the fan-out accounts for
  every published scan (`ReplayRecording`, `Run`, `SubscribersServed`, `RecordingComplete`).

Objects whose methods change fields are classes. The methods of parsers, latches, gate, simulator,
recorder and queues are proved equal to functions on values, and the theorems are about those
functions; the methods of the device, the sequence and the controller keep an account of the whole
run, which the theorems read. Clocks, transports, marker files,
threads and the operating system are scripts or oracles over which every theorem quantifies.
Times are real numbers, resolutions hundredths of a degree.

## Model

| member | source | states |
|---|---|---|
| Crc.Crc16Python | src/lms200/protocol/crc.py:4-11 | the loop computes the checksum function that the theorems below are about |
| Crc.Crc16Native | tools/lms200_native/protocol.cpp:28-40 | the C++ loop, with its carry sampled before the shift, computes the same function |
| Crc.CrcAdditive | src/lms200/protocol/crc.py:6-11 | on strings of equal length the checksum of the XOR is the XOR of the checksums |
| Crc.ZeroStepInjective | src/lms200/protocol/crc.py:8-9 | a zero byte behind a zero byte never merges two accumulator values |
| Crc.SingleByteDetected | src/lms200/protocol/crc.py:4-11 | changing one byte anywhere in a string of any length changes the checksum |
| Crc.PairCollision | src/lms200/protocol/crc.py:4-11 | damage within two adjacent bytes goes unnoticed if and only if another byte follows and the second difference is the doubled first |
| Framing.DecideStable | src/lms200/protocol/framing.py:74-106 | whatever the loop decides on the front of its buffer, no later byte would have made it decide otherwise |
| Framing.Framer.Iterate | src/lms200/protocol/framing.py:74-106 | one turn of the loop: waits, or takes the decided token with its event, statistics, candidate and offset |
| Framing.Framer.FeedBytes | src/lms200/protocol/framing.py:71-107 | `feed` turns the old state into the state of a scan of buffer plus data, and returns the events it added |
| Framing.Framer.ExpireStale | src/lms200/protocol/framing.py:109-115 | `expire` gives up one byte, counts it and scans what is behind it; nothing on an empty buffer |
| Framing.Framer.Reset | src/lms200/protocol/framing.py:117-119 | empties buffer and offset and keeps the statistics |
| FramingTheorems.FeedFragmented | src/lms200/protocol/framing.py:71-107 | any chunking gives the same events, candidates, buffer, offset and statistics as one feed |
| FramingTheorems.TelegramsAreAccepted | src/lms200/protocol/framing.py:53-57 | a byte string passes the length and checksum tests if and only if `encode` produces it from some payload and address |
| FramingTheorems.CaptureIsReference | src/lms200/lmsapi_check.py:112-116 | feeding any chunks and expiring until empty yields exactly the events of a plain left-to-right scan of the capture |
| FramingTheorems.ExpireShrinks | src/lms200/lmsapi_experiment.py:112-113 | every `expire` shrinks a non-empty buffer, so the drain loops end |
| FramingAccounts.BytesConserved | src/lms200/protocol/framing.py:67-115 | over any feeds and expires, bytes fed = buffered + noise + controls + frame bytes + rejected and expired candidates |
| FramingAccounts.BufferBounded | src/lms200/protocol/framing.py:71-115 | after every call the buffer holds at most 813 bytes and is empty or starts with STX |
| FramingAccounts.RoundTrip | src/lms200/protocol/framing.py:53-107 | any list of encodable telegrams and control bytes, under any fragmentation, is returned exactly, with clean statistics and an empty buffer |
| FramingAccounts.PartOfLine | src/lms200/protocol/framing.py:71-107 | after any first part of such a line exactly its complete items were returned, and the buffer goes on with the rest |
| FramingAccounts.DamagedTelegramRejected | src/lms200/protocol/framing.py:94-103 | an encoded telegram with one altered address, payload or checksum byte is a checksum error at its own offset, whatever follows |
| FramingAccounts.PairDamage | src/lms200/protocol/framing.py:94-103 | a telegram damaged within two neighbouring bytes behind its length field is accepted in exactly two cases: a covered byte follows and the second difference is the doubled first, or the last covered and the low checksum byte changed alike; otherwise it is a checksum error at its offset |
| FramingAccounts.PairCanEscape | src/lms200/protocol/framing.py:94-104 | a real case: in every request for installation mode 20 00 can turn into 21 02 and still be accepted |
| NativeDecoder.Decoder.Iterate | tools/lms200_native/protocol.cpp:80-166 | one turn of `parse`: which event, which statistics, which bytes leave the buffer |
| NativeDecoder.Decoder.FeedBytes | tools/lms200_native/protocol.cpp:59-63 | `feed` is the live parse of buffer plus bytes |
| NativeDecoder.Decoder.Finish | tools/lms200_native/protocol.cpp:65-65 | `finish` is the terminal parse of what is left |
| NativeTheorems.LiveBisimilar | tools/lms200_native/protocol.cpp:59-168 | after any feeds decoder and `Framer` hold the same bytes and offset, have emitted the same frames and controls in order, and agree on frame, checksum-failure and noise counts |
| NativeTheorems.FinishBisimilar | tools/lms200_native/protocol.cpp:65-168 | `finish` agrees in the same sense with expiring the `Framer` until it is empty |
| NativeAttribution.FinishExplainsEverything | tools/lms200_native/protocol.cpp:104-128 | from every reachable state `finish` empties the buffer and every event it adds carries a reason |
| NativeAttribution.ControlsAttributed | tools/lms200_native/protocol.cpp:82-92 | after any live feeds a control event has no reason if and only if no candidate was rejected since the last accepted frame |
| Handshake.Handshaker.Notice | tools/lms200_native/sequence.cpp:24-53 | one observed event updates the latch as the source's branches do |
| Handshake.Handshaker.CatchUp | tools/lms200_native/main.cpp:190-190 | the cursor loop brings the latch to the fold over all observations |
| HandshakeTheorems.LatchMeaning | tools/lms200_native/sequence.cpp:24-53 | each latched flag holds if and only if the observed events contain what it stands for |
| HandshakeTheorems.HandshakeOutcome | tools/lms200_native/sequence.hpp:20-20 | success if and only if a clear ACK precedes a valid expected reply, with no NAK, no framed rejection and no invalid expected reply behind an ACK, all at or after the boundary |
| HandshakeTheorems.HandshakeFragmentation | tools/lms200_native/main.cpp:132-140 | the folded handshake depends on the byte stream only, not on how it was read |
| HandshakeTheorems.FinishChangesNoHandshake | tools/lms200_native/sequence.cpp:25-25 | no event of terminal recovery can change any handshake |
| HandshakeTheorems.SuccessHasRawEvidence | tools/lms200_native/sequence.cpp:24-53 | success implies 06 at some p at or after the boundary and a complete valid, acceptable telegram at some q > p in the raw bytes |
| HandshakeTheorems.CursorSkipsNothing | tools/lms200_native/main.cpp:160-167 | starting behind the observations made before the boundary loses nothing |
| NativeSequence.StopOnce | tools/lms200_native/sequence.cpp:60-74 | the stop lambda sends one cleanup Stop exactly when a start was attempted and no stop was, and what it then confirms |
| NativeSequence.RequestStatus | tools/lms200_native/sequence.cpp:76-87 | at most three status requests, each repeated only behind a silent one; a status is the last one's accepted reply |
| NativeSequence.Prepare | tools/lms200_native/sequence.cpp:75-103 | goes on to Start only behind an accepted mode-25 status and, if requested, a confirmed variant |
| NativeSequence.StartAndCapture | tools/lms200_native/sequence.cpp:102-119 | Start, capture and stop, with exceptions: Stop follows exactly a Start that may have arrived |
| NativeSequence.RunSequence | tools/lms200_native/sequence.cpp:55-121 | for every IO behaviour the trace is legal, stop was attempted and confirmed exactly as the trace shows, and the sequence completes if and only if start and stop were confirmed and the capture ran to its end |
| NativeSequence.LegalTraceMeaning | tools/lms200_native/sequence.cpp:55-121 | a legal trace has at most three Status, one Variant (only if requested), one Start and one Stop in this order; Stop is the only cleanup call and is sent once if and only if Start threw or reported a write attempt |
| NativeSequence.SessionExchange | tools/lms200_native/main.cpp:156-214 | success needs a complete, drained write, a healthy reader and a successful handshake, whose status it returns; a retry needs a status exchange that stayed silent to its deadline; the write is attempted unless a call that is no cleanup was interrupted before |
| Commands.BuildersAreBuilt | src/lms200/protocol/commands.py:35-89 | every builder that accepts its arguments carries the telegram and awaits the reply that its name stands for, fits a telegram, has one attempt if it mutates and a positive timeout |
| Commands.UpdateCopy | src/lms200/protocol/responses.py:105-112 | the edited copy is the configuration function that `UpdatedMeaning` is about |
| Commands.UpdatedMeaning | src/lms200/protocol/responses.py:105-112 | changes only bit 1 of byte 4 and bytes 5 and 6, reads back as requested and is idempotent |
| Simulator.SimulatorTransport.Emit | src/lms200/transports/simulator.py:67-77 | puts exactly the fragments of 1, 2, 7, 31, 128 bytes and the rest on the line, which join to the data |
| Simulator.SimulatorTransport.Execute | src/lms200/transports/simulator.py:109-142 | one command's effect on the scanner's fields and its reply |
| Simulator.SimulatorTransport.Answer | src/lms200/transports/simulator.py:99-148 | silence, NAK, omitted ACK, reply and the late change of baud rate for one received frame |
| Simulator.SimulatorTransport.Write | src/lms200/transports/simulator.py:95-148 | a whole write: deaf at another baud rate, otherwise every framed command in order |
| Simulator.FaultFreeAnswers | src/lms200/transports/simulator.py:95-148 | a fault-free scanner hears an encoded command exactly once, carries it out and puts ACK and its telegram on the line |
| Simulator.StatusReadsBack | src/lms200/protocol/responses.py:130-163 | `decode_status` recovers from the simulator's 152 bytes exactly the scanner's mode, error flag, geometry, baud rate, unit and measuring mode |
| StateMachine.Device.Enqueue | src/lms200/state_machine.py:112-116 | the queue becomes the newest 64 of queue and event, so that a full one loses exactly its oldest, which is counted |
| StateMachine.Device.Handle | src/lms200/state_machine.py:118-171 | what each kind of frame adds to the queue; an unhealthy scan always, a startup telegram while streaming, and nothing else, leaves the device FAULTED |
| StateMachine.Device.Receive | src/lms200/state_machine.py:173-212 | a chunk is fed, a stale buffer expired, and the events handled in order; an ended or failing read queues one transport error, faults the device and stops the reader |
| StateMachine.OrdinaryTraffic | src/lms200/state_machine.py:118-171 | of healthy traffic exactly the ACKs and replies reach the command queue, in order; scans never do, and nothing faults the device |
| StateMachine.ReadBrings | src/lms200/state_machine.py:177-182 | reading any next fragment of scans and answers queues exactly what it completes and leaves the rest to come |
| StateMachine.AnswerSent | src/lms200/transports/simulator.py:95-148 | a fault-free scanner sends ACK and one telegram at its own rate and nothing at another |
| StateMachine.ReplyBrings | src/lms200/transports/simulator.py:143-146 | in the middle of a fragmented scan, and with another scan between ACK and reply, what is to come is still exactly ACK and reply |
| StateMachine.Device.Await | src/lms200/state_machine.py:224-248 | one attempt's wait: bounded however many events arrive and wherever it is cancelled; a reply only with evidence; on an undisturbed line the verdict on exactly what was to come |
| StateMachine.Device.Execute | src/lms200/state_machine.py:214-261 | at most `attempts` writes of the command's own telegram (none where refused), a reply only when confirmed and behind an ACK, both arrived after the drain of the last attempt; total waiting at most attempts times both timeouts; the exact result against a fault-free scanner |
| Initialization.RequestStatus | src/lms200/state_machine.py:263-267 | the stored status is the decoded reply that the trace holds; times out when the scanner is at another rate |
| Initialization.Detect | src/lms200/state_machine.py:291-306 | finds a fault-free scanner at any of the tried rates and leaves the line at its rate |
| Initialization.Connect | src/lms200/state_machine.py:269-314 | mutates nothing against any scanner, opens exactly when it says so, keeps the block it read as the starting point, and against a reachable scanner ends with its status, model and configuration |
| Initialization.SwitchBaud | src/lms200/state_machine.py:352-357 | one baud command, after which both ends use the target rate |
| Initialization.Verify | src/lms200/state_machine.py:363-375 | passes only behind a configuration reply and then a status reply, both behind the last change and both in the trace, that read back as desired |
| Initialization.Initialize | src/lms200/state_machine.py:316-387 | against any scanner: a safe trace of vouched-for replies; success only when block and status read back as the settings ask; every failure, cancellation included, ends closed and FAULTED with a cleanup exactly when the transport was open or got opened, and in it one stop exactly when a mutating command had begun; against a fault-free scanner: success, the requested mode, geometry, configuration and baud rate, and exactly the needed writes |
| Initialization.CloseUnlocked | src/lms200/state_machine.py:389-409 | one stop attempt exactly when something mutating had begun, whatever comes of it, and always closed; on an idle line the stop is confirmed |
| Initialization.CleanupMeaning | src/lms200/state_machine.py:389-409 | a cleanup holds exactly one 20 25 if something mutating had begun, none otherwise, and no other write |
| Trace.SafeRunMeaning | src/lms200/state_machine.py:336-381 | in a safe trace every telegram is the one that the settings and the block read before call for; 3B and 77 come only after a confirmed installation mode; 20 24 only after a configuration reply behind all changes, a status reply behind it that together read back as asked, and a confirmed 20 25 behind both; and each of 20 00, baud, 3B, 77 and 20 24 at most once |
| Trace.MatchedMeaning | src/lms200/state_machine.py:363-376 | what a successful run claims about its readback is backed by three replies in its trace |
| InitializationTheorems.InitializeTwice | src/lms200/state_machine.py:336-362 | the device's trace of initialize, close, initialize is three parts: the needed writes, a confirmed stop, and a second run without any 20 00, baud, 3B or 77 and with one 20 24 |
| InitializationTheorems.NewDevice | src/lms200/state_machine.py:73-100 | a new device satisfies what its operations ask for |
| StatusNode.Accumulator.FeedBytes | tools/ros2_status/src/status_node.cpp:139-186 | `feed` reports the tokens of pending plus new bytes in order, each stamped with its offset and side of the boundary |
| StatusNodeTheorems.FeedFragmented | tools/ros2_status/src/status_node.cpp:139-186 | any chunking gives the same observations and the same pending bytes |
| StatusNodeTheorems.MarkedObservations | tools/ros2_status/src/status_node.cpp:138-186 | with one boundary mark between any chunks, the observations depend on the stream only and `post_tx` holds exactly at or after the boundary |
| StatusNodeTheorems.Node.Callback | tools/ros2_status/src/status_node.cpp:305-327 | one observation updates the latched flags and counts |
| StatusNodeTheorems.LatchMeaning | tools/ros2_status/src/status_node.cpp:303-327 | each flag holds if and only if the observations contain a post-boundary ACK, a NAK, a valid status behind an ACK |
| StatusNodeTheorems.NodeSuccess | tools/ros2_status/src/status_node.cpp:377-377 | success needs exactly a valid status behind an ACK and no NAK, and so implies 06 at or after the boundary and a later valid B1 of supported length in the raw bytes |
| Recording.Recorder.Write | src/lms200/recording.py:37-67 | raw file, index and count stay those of the scans written; a closed recording raises |
| Recording.IndexTiles | src/lms200/recording.py:41-53 | the index of recorded telegrams tiles the raw file contiguously and exactly |
| Recording.ReplayTransport.Read | src/lms200/transports/replay.py:37-65 | the next piece of the file under the current index entry, EOF only at a fully honoured end, an error only for an index that does not tile |
| Recording.ReadToEnd | src/lms200/transports/replay.py:37-65 | reading any file with any index to the end reports EOF if and only if the entries tile the file |
| Recording.ReplayRecording | src/lms200/transports/replay.py:37-65 | replaying recorded valid telegrams returns exactly them, in order, each with its own timestamp, then EOF with an empty framing buffer |
| Ros2Controller.SingleStatusGate.Accept | src/lms200/ros2_status_experiment.py:37-48 | one call's answer and the fields it leaves, refused calls included |
| Ros2Controller.GateReleases | src/lms200/ros2_status_experiment.py:37-48 | after any calls, a call releases a packet if and only if it is authorized and completes the seven-byte request out of everything ever authorized |
| Ros2Controller.GateOpensOnce | src/lms200/ros2_status_experiment.py:37-48 | over any sequence of calls at most one packet is released |
| Ros2Controller.Controller.CheckMarkers | src/lms200/ros2_status_experiment.py:169-196 | marker files and authorization keep the run's account; each timeout is raised exactly when its confirmation is overdue |
| Ros2Controller.Controller.HandleEvent | src/lms200/ros2_status_experiment.py:209-238 | what each collected line leads to: readiness, exit, error, or the gate's answer and with it a complete write and flush, a short write or a refusal |
| Ros2Controller.Controller.Conclude | src/lms200/ros2_status_experiment.py:239-252 | authorization of a scanner already on; the loop ends normally only five seconds or more behind a flushed write and goes on less than eight |
| Ros2Controller.Run | src/lms200/ros2_status_experiment.py:168-254 | in every run at most one write, of exactly the request, behind the controller's own trigger, behind first the relay and then the node being ready, with no node byte before the trigger and the whole request after it; in passive mode 65 seconds or more after the power-on time stamp with startup confirmed |
| Fanout.Service.PublishScan | src/lms200/service.py:27-37 | the oldest scan makes room for subscribers, the newest is refused by the recorder's queue, and both drops are counted |
| Fanout.Service.SubscribeClient | src/lms200/service.py:39-42 | a new empty queue that owes nothing of what was published before |
| Fanout.Service.StartRecordingScans | src/lms200/service.py:91-100 | a fresh session unless one is attached; refused when not streaming |
| Fanout.Service.RecordTurn | src/lms200/service.py:104-108 | the next scan is written, or the sentinel ends and closes the recording |
| Fanout.Service.StopRecording | src/lms200/service.py:117-125 | comes to an end, detaches the recording and leaves in its file exactly the scans that had found room, without touching any other recording |
| Fanout.StepSettles | src/lms200/service.py:27-125 | every step of every coroutine keeps the account of queues, files and drop counters |
| Fanout.SubscribersServed | src/lms200/service.py:27-42 | after any run each subscriber's queue is the newest at most two of its scans, and consumed + dropped + queued are all scans published since it subscribed; the drop counter is their sum |
| Fanout.RecordingComplete | src/lms200/service.py:91-125 | after any run a closed recording holds in order and once each scan that found room, and written + refused are all scans published while it was attached |
| Fanout.DetachedForGood | src/lms200/service.py:117-121 | no step of anyone offers a detached recording another scan |

## Left out

- Operating-system serial I/O, PTY relay, TCP transport, the host bridge, the web application, the command line and exports.
- Floating-point scan geometry: `decode_scan` is reduced to the conditions under which it raises.
- The replay branches of `connect` and `initialize`, `reconnect`, state history, log, snapshot and the scan-gap counters of `Device`.
- The measurement timeout of `_read_loop` while streaming, and the start-up wait.
- Initialization.Initialize: a second cancellation during the cleanup and a transport whose `close` raises are not modelled; in the fault-free half the reader takes waiting fragments before time passes, so latency shorter than the timeouts is not distinguished from none.
- Simulator.SimulatorTransport.Write: the response delay and the list of received commands are not modelled; the producer is an arbitrary sequence of healthy scans, emitted in fragments while both rates agree.
- StateMachine.Device.Execute: of the diagnostic counters only the dropped events are specified.
- StateMachine.Device.Receive: the quarter-second staleness clock is an arbitrary `Stale` input.
- HandshakeTheorems.HandshakeFragmentation: is about the folded handshake; `Session::exchange` may stop observing at the first success or rejection, so its timing is not covered.
- NativeSequence.SessionExchange: models the result of the exchange from what it observed, not the port calls and deadlines.
- StatusNodeTheorems.NodeSuccess: the vendor library's checksum and payload limit are arbitrary parameters; the node's poll loop is left out.
- Recording.ReplayTransport.Read: JSON, metadata, pacing and a failing `fromisoformat` are left out; index entries and time stamps are numbers.
- Ros2Controller.Run: the 65 seconds are measured between the time stamps the loop takes at the start of its turns, as the source measures them; a journal that cannot be written and the clean-up behind the loop are left out.
- Fanout.RecordingComplete: failing writes and cancelled tasks are left out.
- Error texts: only whether a reason is empty, and which error is raised, is modelled.
