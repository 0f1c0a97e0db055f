# keepty: verified output fan-out

keepty's broker owns one PTY and fans its output out to many clients. This
project models that pipeline and proves, end to end, that every client sees one
contiguous, correctly ordered piece of the PTY history, whatever the
interleaving of the broker's threads, the merging of frames in the queues and
the pieces in which sockets deliver bytes.

* `Bytes.dfy`, `Wire.dfy` – byte strings; the frame format, one-shot reading and
  the incremental parse that every buffered reader repeats.
* `Ring.dfy` – the circular history buffer, refined by "the last `capacity` bytes".
* `Queueing.dfy`, `ClientQueue.dfy` – what a client queue means (whole frames, and
  the flattened stream of output bytes and control frames), and the queue as the
  broker keeps it: encoded frames merged in place with patched length fields.
* `Broker.dfy` – the broker as a step system: one step per critical section of the
  output mutex, per atomic operation on `writer_id` and `spawned`, and per socket
  read or write. A writer's arrival, its request to spawn, the opening of the PTY
  and its swap of `writer_id` are separate steps, so that writers may overtake
  each other; so are a writer check and the PTY write or resize it permits, and
  every single send of an attaching client's replay.
* `BrokerInvariant.dfy`, `BrokerSteps.dfy` – what every step keeps, over every run.
* `Locality.dfy` – what each step leaves alone.
* `Delivery.dfy`, `Guarantees.dfy`, `Barrier.dfy`, `Authority.dfy`, `Resizes.dfy`,
  `HandBack.dfy`, `StaleClaims.dfy`, `Progress.dfy` – what follows for clients: exactly-once delivery, one order for everybody, the
  resize fence, bounded queues, Exit, the Ping/Pong barrier, who may type, resize
  and stop the broker, who may type after writers come and go, and that nobody is
  ever stuck.
* `Fanout.dfy` – the broadcast, eviction and replay loops over the client map,
  refining one step of the broker whatever the iteration order.
* `ScreenReader.dfy`, `TsFrameReader.dfy` – the Rust and TypeScript frame readers.
* `RawText.dfy`, `VisibleText.dfy`, `GtCsi.dfy`, `Onlcr.dfy`, `Detach.dfy`, `Painted.dfy` – the
  stateful scanners on the client side, each against a specification of the
  whole stream or screen; `NewText.dfy` – the wait that runs two of them together.
* `EndToEnd.dfy` – queue, wire, decoder and relay composed.

A session's `stream` is everything its queue accepted, `dequeued` what its drain
thread took, `wire` what was written to its socket after HelloAck. `log` is every
byte read from the PTY and every ResizeAck, in order. These fields record what
has happened; no step looks at them except to extend them.

Where the documentation and the code differ, the model follows the code.
`docs/PROTOCOL.md` (lines 188 and 205) says Watchers get no ring replay; the
broker replays to every role, and on the alternate screen it sends a read-only
client a snapshot instead, which is split when it exceeds the payload limit
(`keepty/src/broker.rs:1024-1035`). The ring's replay is at most one frame, as documented.
A comment (`keepty/src/broker.rs:1228-1230`) calls Watchers the only role that cannot
shut the broker down; the code also refuses a Writer that does not hold `writer_id`,
and obeys a Watcher when nobody does.

## Model

| member | source | states |
|---|---|---|
| Wire.TakeIffEncode | keepty-protocol/src/lib.rs:136-188 | Reading inverts encoding, and a byte string is accepted if and only if it begins with the one encoding of the result; the rest is left over |
| Wire.EncodedBytes | keepty-protocol/src/lib.rs:135-147 | A frame in bytes: big-endian count of what follows it, version 1, kind, payload |
| Wire.KnownKinds | keepty-protocol/src/lib.rs:70-88 | The accepted kinds are 1 to 6, 10 to 13 and 127 |
| Wire.BadFronts | keepty-protocol/src/lib.rs:148-188 | In bytes: which counts, versions and kinds are refused, in which order, and when more bytes are needed |
| Wire.ReadFrom | keepty-protocol/src/lib.rs:148-188 | A frame is read exactly when its encoding is at the front; fewer than four bytes are a clean end, a missing body is not, and each header or kind error is reported exactly when the bytes have it |
| Wire.TakeStable | keepty-screen/src/lib.rs:255-269 | A decision about the front of a buffer is never changed by bytes that arrive later |
| Wire.TakeOfPrefix | keepty-screen/src/lib.rs:255-269 | No proper prefix of an encoding is decided early |
| Wire.ParseAccountsForInput | keepty-screen/src/lib.rs:249-296 | Parsed frames and leftover bytes are together exactly the input |
| Wire.ParseResumes | sdks/typescript/src/protocol.ts:124-156 | Parsing may stop at any byte and resume with the leftover, errors included |
| Wire.ParseOfStream | sdks/typescript/src/protocol.ts:128-155 | On any prefix of a stream of encodings: no error, exactly the complete frames in order, and a proper prefix of the next encoding left |
| Wire.ParseOfEncodeAll | sdks/typescript/src/protocol.ts:128-155 | A whole stream parses to the whole list with nothing left |
| Wire.ResizeAckRoundTrip | keepty-protocol/src/lib.rs:257-273 | A ResizeAck payload decodes to the generation and size it was made from |
| Wire.ResizeAckBytes | keepty-protocol/src/lib.rs:257-263 | A ResizeAck payload in bytes: generation, columns and rows, each big-endian |
| Ring.RingBuffer.constructor | keepty/src/broker.rs:65-72 | A new ring holds nothing |
| Ring.RingBuffer.Push | keepty/src/broker.rs:74-80 | A push appends to the history; the write position is the total modulo the capacity and every retained byte is in its slot |
| Ring.RingBuffer.Recent | keepty/src/broker.rs:83-98 | The result is the last min(total, capacity) bytes ever pushed |
| Ring.PiecesLeaveSameHistory | keepty/src/broker.rs:74-98 | Any way of cutting the output into pushes leaves the same retained bytes |
| Queueing.JoinAppendsEvents | keepty/src/broker.rs:149-174 | Merging appends exactly the frame's own events: no byte lost, doubled or moved across a control frame |
| Queueing.JoinStaysTidy | keepty/src/broker.rs:149-174 | Stored frames stay decodable, and of two adjacent outputs the earlier is full |
| Queueing.JoinSize | keepty/src/broker.rs:131-136 | A frame costs its own encoded length, less one header exactly when the tail absorbs it whole |
| Queueing.SendKeepsOk | keepty/src/broker.rs:128-177 | The memory bound survives every send; an accepted output leaves at most the plain cap; a refused frame changes nothing |
| Queueing.AdmittedIff | keepty/src/broker.rs:128-147 | On an open queue Exit is taken once whatever the load, and any other frame if and only if the queue stays within 16 MiB, to which Pongs and ResizeAcks may add 64 KiB, counting no header for output that the tail absorbs whole |
| Queueing.ControlAlwaysFits | keepty/src/broker.rs:138-143 | An open queue within the plain cap always takes a Pong or a ResizeAck |
| Queueing.RecvKeepsOk | keepty/src/broker.rs:179-202 | The bound and the shape of the queue survive every take, on time or late |
| Queueing.ExitIsTerminal | keepty/src/broker.rs:179-202 | From a closed queue ending in Exit: whole pending frames in order, then Exit once, then nothing, and nothing skipped before the deadline |
| Queueing.ReplayRejoins | keepty/src/broker.rs:33-36 | Replay chunks are sendable and nonempty and join to the data |
| Queueing.ReplayChunksAreFull | keepty/src/broker.rs:33-36 | Every replay chunk but the last has the full payload size |
| Queueing.ReplayArrivesIffItFits | keepty/src/broker.rs:1033-1035 | Because refusals are ignored, an untouched queue ends up with the whole replay if and only if its encoded size is within the cap |
| Queueing.HistoryFits | keepty/src/broker.rs:1031-1043 | The ring's replay with a writer's modes frame is always within the cap |
| ClientQueues.ClientQueue.Send | keepty/src/broker.rs:128-147 | Accepted exactly when open and, for Exit, not yet queued, or otherwise when the byte count and the frame's cost stay within 16 MiB, plus 64 KiB for Pong and ResizeAck; the new queue is the old one with the frame joined |
| ClientQueues.ClientQueue.Store | keepty/src/broker.rs:147-177 | In-place merge and header patch encode the joined frames, and the byte count stays exact |
| ClientQueues.ClientQueue.Recv | keepty/src/broker.rs:179-202 | The front frame, or only Exit once the deadline has passed; otherwise closed or wait |
| ClientQueues.ClientQueue.Retain | keepty/src/broker.rs:186-192 | The late sweep keeps exactly the Exit frames and recomputes the count |
| ClientQueues.ClientQueue.Close | keepty/src/broker.rs:204-207 | Closing changes nothing but the flag |
| Fanout.BrokerState.SendToAll | keepty/src/broker.rs:442-447 | In any iteration order every client gets the frame once, and the dead are exactly the refusers |
| Fanout.BrokerState.Evict | keepty/src/broker.rs:448-461 | Exactly the dead are removed and closed, and the claim of an evicted writer is dropped |
| Fanout.BrokerState.Broadcast | keepty/src/broker.rs:1150-1169 | The loop over the client objects is one broadcast step of the broker |
| Fanout.BrokerState.OnPtyRead | keepty/src/broker.rs:429-462 | Ring push and broadcast together are one PTY step of the broker |
| Fanout.Replay | keepty/src/broker.rs:1033-1035 | The replay loop sends the chunks in order whatever the outcomes |
| BrokerSteps.StepKeeps | keepty/src/broker.rs:839-1270 | Every step of every thread keeps the whole invariant |
| BrokerSteps.EveryRunKeeps | keepty/src/broker.rs:253-292 | The invariant holds after every run, whatever the interleaving |
| BrokerSteps.BroadcastKeeps | keepty/src/broker.rs:439-461 | A broadcast keeps every client's stream a piece of the log: delivered and up to date, or evicted and closed |
| BrokerSteps.Delivered | keepty/src/broker.rs:442-444 | A delivered frame extends the client's segment of the log by exactly its events |
| BrokerSteps.ReplayAdvances | keepty/src/broker.rs:1033-1043 | A replay within the budget is never refused while the queue is open, though the drain thread runs beside it |
| BrokerSteps.TakesLate | keepty/src/broker.rs:182-196 | At the deadline what was taken is an initial piece of the stream, then Exit |
| Delivery.PlanSays | keepty/src/broker.rs:1024-1043 | The planned replay says the last min(t0, capacity) bytes of the history at attach, then a writer's cancel and mode bytes; or the snapshot; and the ring's always fits |
| Delivery.ReplayInBytes | keepty/src/broker.rs:1018-1043 | Before live output, in bytes: nothing for the first writer; the last mebibyte at most of the history at attach, then CAN and the mode bytes for a writer; or `ESC [ ? 1 0 4 9 h` and a snapshot, never for a writer |
| Delivery.StreamIsExpected | keepty/src/broker.rs:1018-1046 | What a queue ever accepted is an initial piece of replay and live history, and all of it for a client that was not cut off |
| Delivery.ExactlyOnce | keepty/src/broker.rs:1018-1046 | Bytes taken then bytes waiting are replay ++ H[t0..t1], with equality unless the queue was closed early or the deadline cut it; an attached client with an open queue is registered and t1 is the present |
| Guarantees.OneOrderForAll | keepty/src/broker.rs:439-462 | Apart from replay, Pongs and Exit, every client's stream is one contiguous segment of one global log |
| Guarantees.LogRecordsRun | keepty/src/broker.rs:429-440 | The history given to clients is exactly what the run read from the PTY, with one numbered ResizeAck per committed resize |
| Guarantees.ResizeFence | keepty/src/broker.rs:1126-1155 | Two clients that see the same generation see the same ResizeAck at the same offset of the PTY history |
| Guarantees.GenerationsGoUpByOne | keepty/src/broker.rs:1144-1148 | In each client's stream the generations go up by exactly one |
| Guarantees.QueuesAreBounded | keepty/src/broker.rs:130-146 | In every reachable state a queue holds at most the cap, the control slack and one Exit |
| Guarantees.DroppedIffFull | keepty/src/broker.rs:442-447 | A broadcast keeps a registered client if and only if its queue is open and has room for the frame, in bytes |
| Guarantees.ExitIsLastAndCertain | keepty/src/broker.rs:758-779 | For every client registered with an open queue at the Exit broadcast, in every later state: Exit was queued whatever the load, frames taken since are pending ones in order then Exit once, all pending ones if and only if the deadline cut none, and Exit ends the queue; the client's piece of the log ends at the broadcast |
| Guarantees.LateTakeIsExit | keepty/src/broker.rs:182-196 | A take that finds the deadline passed takes Exit, leaves nothing, and cuts something if and only if anything else was waiting |
| Authority.ExitFollowsStop | keepty/src/broker.rs:753-773 | Over every run: each Exit broadcast comes after a step that stopped the broker |
| Authority.ExitMeansStopped | keepty/src/broker.rs:753-773 | After every run: Exit sent, or queued for anyone, means that the broker has been stopped |
| Progress.StoppedCanExit | keepty/src/broker.rs:753-773 | Every run that has stopped the broker, with Exit not sent and the output lock free, can go on with the Exit broadcast, with any code, which unregisters everybody |
| Progress.StoppedWillExit | keepty/src/broker.rs:753-773 | If the lock is held, its holder can finish its replay first |
| Authority.InputAuthority | keepty/src/broker.rs:1101-1115 | All PTY input comes from clients that handshook as Writer; each client's is, in order, its inputs that passed the writer check; holders and saved previous holders are Writers that have swapped themselves in, and nobody saves itself |
| Authority.VerdictIsWriterCheck | keepty/src/broker.rs:1103-1105 | The recorded verdict is whether the sender held `writer_id`, with the spawn under way, at the step that handled the message; it is taken back only for an input that finds no PTY yet |
| Locality.HandlesDesk | keepty/src/broker.rs:1101-1129 | Handling a message: an Input or Resize goes on to act if and only if at this step the sender holds `writer_id` and the spawn is under way, and with exactly what was asked |
| Authority.TypedWhileHolding | keepty/src/broker.rs:1101-1115 | Over every run: each thing written to the PTY is an Input that its sender, a Writer, had sent, and at the step that handled it the sender held `writer_id` |
| Authority.ResizedWhileHolding | keepty/src/broker.rs:1116-1148 | Over every run: each resize that clients are told of, in order, has the size that a Writer asked for, and at the step that handled the request that Writer held `writer_id` |
| Resizes.ResizesAreCommitted | keepty/src/broker.rs:1116-1155 | Over every run, per client: the Resizes that passed the check are, in order, those it committed and then the one pending, if any |
| Resizes.CommittedAreLogged | keepty/src/broker.rs:1144-1155 | Over every run: the ResizeAcks of the log are one for one, in order and with their sizes, the resizes committed by all clients together, as many as generations |
| Resizes.PendingStays | keepty/src/broker.rs:1116-1155 | A resize that passed the check stays pending until it is committed, whatever else happens |
| Resizes.OutboxIsSent | keepty/src/broker.rs:1094-1100 | Over every run: what the broker has to handle for a client is what the client sent, in order |
| Authority.StoppedIffEntitled | keepty/src/broker.rs:1227-1240 | Over every run: the broker has been stopped if and only if it stopped of itself or handled a Shutdown whose sender, at that moment, held `writer_id`, was a Monitor, or found no writer |
| Authority.WatchersCannotStop | keepty/src/broker.rs:1227-1240 | While there is a writer, only that writer and Monitors can stop the broker: no Watcher, and no earlier writer |
| Barrier.WireDecodes | keepty/src/broker.rs:264-274 | Any part of a client's socket stream parses without error to the first of the frames its drain thread took |
| Barrier.SyncBarrier | keepty/src/broker.rs:1094-1115 | One Pong more than the Pings sent before: the broker has handled everything sent before the Ping, approved inputs are typed, and the client has decoded everything enqueued ahead of that Pong |
| Barrier.PingsAreAnswered | keepty/src/broker.rs:1241-1250 | One Pong per handled Ping while the queue is open, never more |
| HandBack.NewestHoldsIffOrderly | keepty/src/broker.rs:1263-1268 | All through a run `writer_id` is the connected writer whose swap was last, or 0 if there is none, if and only if no step evicts that writer, and whenever one of its two threads first runs the restoring compare-exchange, the writer it took over from has not run one yet, or there was none |
| HandBack.NestedWritersHandBack | keepty/src/broker.rs:284-289 | In particular when the writers' first restoring compare-exchanges come in the reverse order of their swaps and none is evicted, although two threads run one for each writer; connected means from the swap to the first of them |
| StaleClaims.OutOfOrderClaimIsStale | keepty/src/broker.rs:284-289 | A concrete run: the older of two writers leaves first, with both its threads, and the newer hands `writer_id` to it; all four threads have ended and `writer_id` names a client that is gone |
| StaleClaims.OvertakenClaimIsStale | keepty/src/broker.rs:1255-1268 | A concrete run with the same end: the newer writer leaves first, as in a nested session, but the older one goes, with both its threads, before the newer one's compare-exchange |
| StaleClaims.StaleClaimLasts | keepty/src/broker.rs:1263-1268 | Once both threads of the client named by `writer_id` have ended, `writer_id` names it at every later moment until another writer's swap |
| Progress.HandlerIsNeverStuck | keepty/src/broker.rs:1089-1260 | Whenever the output lock is free or its own, the thread that reads from a client has a next step, until it has finished |
| Progress.DrainIsNeverStuck | keepty/src/broker.rs:263-292 | The thread that writes to a client waits only for the lock, or for something to write on an open queue |
| Progress.LockCanBeFree | keepty/src/broker.rs:1018-1046 | Whoever holds the output lock can finish its replay, be registered and release it, with nothing else changed |
| Progress.AttachedCanRead | keepty/src/broker.rs:935-945 | Once the first writer has been attached, the PTY can be read, up to 16384 bytes at a time, whenever the lock is free |
| Progress.AnyoneCanAttach | keepty/src/broker.rs:839-1046 | At any moment a client of any role can connect and come to be registered |
| Progress.ClientCanCatchUp | keepty/src/broker.rs:263-274 | Every registered client whose socket takes what is written can come to have been written all of its replay and history, up to the newest byte |
| TsFrameReader.FrameReader.Feed | sdks/typescript/src/protocol.ts:128-155 | Feed returns the frames of buffer and data, keeps the leftover, and throws exactly on a malformed front |
| TsFrameReader.FeedAll | sdks/typescript/src/protocol.ts:124-156 | Fed in any pieces, a stream of frames comes out as exactly that list |
| TsFrameReader.EncodeFrame | sdks/typescript/src/protocol.ts:53-61 | The filled buffer is the frame's encoding |
| ScreenReaders.ScreenReader.ReadFrame | keepty-screen/src/lib.rs:249-296 | The next frame of everything received; or everything received is decoded but for an unfinished frame, and nothing more came, time ran out or the connection broke; or the front is malformed. Looking stops at the first arrival that ends it |
| ScreenReaders.ScreenReader.Poll | keepty-screen/src/lib.rs:191-247 | No byte is lost across timeouts, and unless time ran out between two frames everything received is decoded; observers get the output of the frames taken, in order; the count is the frames that changed the screen; each Ping is answered once; nothing is taken after Exit; each error has its cause |
| ScreenReaders.ScreenReader.Sync | keepty-screen/src/lib.rs:369-389 | One Ping is sent; it succeeds if and only if one more Pong was taken; when it gives up because nothing more comes, everything received has been decoded |
| RawTexts.RawText.Take | keepty/src/main.rs:813-862 | The switch follows the scan table and its unreachable state is never entered |
| RawTexts.RawText.Feed | keepty/src/main.rs:810-870 | The result is whether the needle ended the text after some byte of this piece, although only needle length + 256 bytes are kept |
| RawTexts.TailSees | keepty/src/main.rs:863-867 | The bounded tail gives the same answer as the whole text |
| RawTexts.HitIsContains | keepty/src/main.rs:863 | Hits over a piece are exactly the new occurrences in the text |
| RawTexts.ScanIsVisible | keepty/src/main.rs:813-862 | Byte by byte, the scanner finds the visible text of the stream, read one escape sequence at a time |
| VisibleText.PrintableIsVisible | keepty/src/main.rs:813-819 | Bytes that are neither controls nor DEL are their own visible text |
| VisibleText.ControlsBreakOrVanish | keepty/src/main.rs:814-819 | Between any texts: BS, TAB, LF and CR each give one line feed, every other control but ESC, and DEL, nothing |
| VisibleText.BreaksSeparate | keepty/src/main.rs:816 | So a needle without line feeds is never found across one of these, and is found on either side |
| VisibleText.ControlSequences | keepty/src/main.rs:833-841 | `ESC [`, parameters and final byte give nothing for m, h and l, and one line feed for any other final byte |
| VisibleText.TwoByteEscapes | keepty/src/main.rs:820-832 | ESC with 7, 8, D, E, M or c gives one line feed, with any other byte that opens nothing longer, nothing |
| VisibleText.IntermediateEscapes | keepty/src/main.rs:849-853 | An escape with intermediate bytes ends at the first byte from 0x30 to 0x7e and gives nothing |
| VisibleText.ControlStrings | keepty/src/main.rs:842-861 | A finished DCS, SOS, PM or APC string gives nothing |
| VisibleText.OscStrings | keepty/src/main.rs:842-861 | Nor does a finished OSC string, which a BEL ends too unless an ESC precedes it |
| RawTexts.Watch | keepty/src/main.rs:809-870 | For every cutting into feeds, some feed hits if and only if the needle occurs in the visible text of the whole stream |
| GtCsi.GtCsiFilter.ScanCsi | sdks/python/keepty/screen.py:141-165 | The scan decides keep, drop, invalid or incomplete as the parameter run, its limit and its final byte say |
| GtCsi.GtCsiFilter.Drain | sdks/python/keepty/screen.py:105-139 | The index loop is the one-pass filter of the buffer, and ends |
| GtCsi.GtCsiFilter.Push | sdks/python/keepty/screen.py:97-103 | A push continues the filter where it held back, fast path included |
| GtCsi.DrainedResumes | sdks/python/keepty/screen.py:97-139 | Filtering in two goes is filtering the whole |
| GtCsi.DrainedHolds | sdks/python/keepty/screen.py:105-165 | What is held is empty or an unfinished sequence of at most 129 bytes that starts with ESC |
| GtCsi.DrainedSurvives | sdks/python/keepty/screen.py:84-92 | Output and held bytes are, in order, exactly the bytes that lie in no complete `ESC [` sequence containing `>` |
| GtCsi.GtSequences | sdks/python/keepty/screen.py:141-165 | In bytes: a sequence of at most 127 parameter bytes vanishes if one of them is `>` and otherwise passes whole |
| GtCsi.BrokenSequences | sdks/python/keepty/screen.py:141-165 | A longer run of parameters, or one that ends in another byte, is no sequence: its ESC passes and the rest is filtered afresh |
| GtCsi.UnfinishedSequences | sdks/python/keepty/screen.py:105-139 | An unfinished sequence or a last ESC is held back; an ESC before another byte passes |
| GtCsi.Filter | sdks/python/keepty/screen.py:97-139 | The same for every cutting of the stream |
| Onlcr.StdoutRelay.RawWrite | keepty/src/attach.rs:69-96 | A frame, on either path, appends its conversion and carries the CR flag |
| Onlcr.ConvertAppend | keepty/src/attach.rs:69-96 | Converting in pieces with the carried flag is converting the whole |
| Onlcr.ConvertKeepsBytes | keepty/src/attach.rs:79-93 | Every byte keeps its place but for one CR inserted before each bare LF; the length grows by their number |
| Onlcr.ConvertLeavesNoBare | keepty/src/attach.rs:79-93 | No LF of the output lacks a CR before it |
| Onlcr.ConvertFixes | keepty/src/attach.rs:64-67 | A stream is unchanged if and only if it has no bare LF; converting again changes nothing |
| Onlcr.LineFeeds | keepty/src/attach.rs:79-93 | In bytes: a line feed between any texts gets a carriage return before it unless it has one |
| Onlcr.OtherBytes | keepty/src/attach.rs:69-78 | A text without line feeds is unchanged |
| Onlcr.Relay | keepty/src/attach.rs:267-280 | Over any frames, empty ones included, the output is the conversion of their concatenation |
| Detach.PatternEnds | keepty/src/attach.rs:425-434 | The comma count is at least three when a `d` comes exactly if the stream then ends in three commas and a `d` |
| Detach.WriterLoop | keepty/src/attach.rs:389-448 | For every splitting of keystrokes into reads: detach if and only if the pattern was typed, having forwarded exactly the reads before the completing one |
| Painted.ScanRow | keepty/src/main.rs:756-796 | A row matches if and only if some stretch of newly painted text in it, blank gaps counted as spaces, contains the needle |
| Painted.ScanScreen | keepty/src/main.rs:754-798 | The screen matches if and only if some row does; rows are never joined |
| Painted.AgreeingRow | keepty/src/main.rs:760-796 | A row that agrees with the live screen throughout, painted at both ends, shows what its text contains: a space for each blank gap cell or empty cell, nothing for the second half of a wide character |
| Painted.PartedRow | keepty/src/main.rs:764-783 | A cell that disagrees, or is unpainted over live text, parts the row: nothing is found across it, and what either side shows is found |
| Painted.PaintedCells.Feed | keepty/src/main.rs:734-799 | Over all feeds: a feed matches if and only if it finds the needle on the screen and neither size nor screen has changed nor the output since the shadow was last started contains a cursor restore, even one cut across frames; otherwise the shadow is started afresh |
| NewText.StartsAfresh | keepty/src/main.rs:734-753 | A change of size or of screen, or ESC 8 in the output since the last fresh start, even cut across observations, finds nothing and starts afresh |
| NewText.GoesOn | keepty/src/main.rs:745-754 | Any other observation goes on and finds the needle if and only if the screen shows it |
| NewText.Watch | keepty/src/main.rs:664-673 | The match flag of a wait for new text, over any observations: the needle occurs in the visible text of all output since arming, or some observation shows it in newly painted cells |
| EndToEnd.ClientSeesHistory | keepty-screen/src/lib.rs:215-229 | The output decoded from any part of a client's socket is an initial piece of its replay and the history since |
| EndToEnd.CaughtUpClientSeesAll | keepty-screen/src/lib.rs:215-229 | A registered client with nothing waiting or in flight has been written all of it, up to the newest byte |
| EndToEnd.AttachReader | keepty/src/attach.rs:266-308 | The attach reader writes the conversion of the decoded output up to Exit, end of input or an error, or up to the frame after which it sees that the client has detached |
| EndToEnd.UpToExitStops | keepty/src/attach.rs:283-289 | The frames relayed are everything in front of the first Exit, that Exit, and nothing after it |
| EndToEnd.TerminalShowsHistory | keepty/src/attach.rs:266-308 | End to end, the terminal shows the conversion of an initial piece of replay and history, with no bare LF |
| EndToEnd.EndedClientSawAll | keepty/src/broker.rs:758-773 | A client that has decoded Exit has decoded every frame taken for it, and unless the deadline cut frames all its replay and the history up to the Exit broadcast |
| EndToEnd.TerminalShowsAll | keepty/src/attach.rs:266-308 | A terminal that was not detached, and has read Exit with nothing cut, or all that was written to a caught-up client, shows the conversion of all of replay and history |
| EndToEnd.ObserverSeesHistory | keepty-screen/src/lib.rs:191-247 | What a screen reader has given its parser is an initial piece of replay and history |
| EndToEnd.ObserverSeesAll | keepty-screen/src/lib.rs:191-247 | A reader that has read everything written and was not cut off by time has observed all of replay and history, up to the newest byte |
| EndToEnd.ObserverSeesEnd | keepty-screen/src/lib.rs:191-247 | A reader that has taken Exit has observed, unless the deadline cut frames, all of replay and history up to the Exit broadcast |
| EndToEnd.WaitForText | keepty/src/main.rs:649-673 | The match flag after any frames since arming: the needle occurs in the visible text of the piece of replay and history that begins where the output before arming ends, or some observation shows it in newly painted cells |
| EndToEnd.SyncIsBarrier | keepty-screen/src/lib.rs:366-389 | With no Ping unanswered before, a successful `sync` is the barrier |

## Left out

- Operating-system effects: sockets are reliable FIFO byte streams, a mutex section is one step, and PTY, ioctl, signal, process and file-permission calls are not modelled; neither are failing writes by a client.
- The handshake bytes: HelloAck goes straight to the socket before the queue exists; `wire` begins after it. A handshake that fails after the writer swap does not restore `writer_id` (keepty/src/broker.rs:916-925) and is not modelled.
- Atomicity: the compare-exchanges of one broadcast's evictions belong to its step, and the loads of `spawned` and `writer_id` in one check are one step. Setting a client's shutdown deadline and queueing its Exit (keepty/src/broker.rs:764-767) are one step: a sweep between them, possible only when the whole drain timeout has passed by then, is not modelled.
- Deferred spawn: registering the first writer and starting the PTY reader are one step; the child's own start is not modelled.
- Broker.AttachBegin: snapshots, mode bytes and the choice of the alternate screen are arbitrary inputs, because the terminal parser that makes them is library code; `Delivery.ReplayFits` says when a snapshot is within the queue's budget.
- Time: a deadline is a flag that any take may find passed; debounce, the resize nudge, write timeouts and the final socket shutdown that may tear a frame are not modelled. `finished` and the wait for drains are not modelled.
- Broker.Resize: terminal dimensions held by the broker (`cols`, `rows`, the shadow screen) are not state of the model, and a Watcher's redraw nudge has no effect in it.
- Counters: client ids and byte totals do not wrap; a resize needs a generation below 2^32.
- Painted.Look: what the shadow and the live screen show, and whether size or screen changed, are inputs, because the terminal parsers are library code; the text and its bytes are separate inputs, the encoding not being modelled.
- Waiting without the new-text option searches the parsed screen, and `--quiet` ends a wait without a match; neither is modelled.
- Detach.WriterLoop: only the writer's keys; a watcher's `q`, Ctrl-C and `r` keys, and failing socket writes, are not modelled.
- Payload codecs other than ResizeAck, the Go, .NET and Python codecs, the TypeScript session, command-line parsing, named keys, list and stop: direct computation or copies.
