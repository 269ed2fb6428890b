# xypi: verified models of its concurrent and wire-level core

xypi sits between an Arduino on an SPI link, MIDI ports, OSC peers and a JSON web socket api. This
project models the parts of it whose correctness depends on interleavings or on every byte of a
stream, and proves what they promise.

**The command api** (`locked/queue.h`, `locked/map.h`, `wsapi_handler.cpp`, `wsapi_worker.cpp`).
Handler threads give each command an id, push it on a blocking queue (urgent ones to the front) and
answer `get` and `list`. One worker takes the front command, works on it *while it stays queued*,
stores the result and only then removes it. `CommandSystem` is the transition system: any number of
handlers, one worker, one stopper, and any thread that flips the queue's flags; one action is one
critical section, one atomic or one flag access, and the condition variable is an explicit wait set.
`CommandInvariant` holds the invariant; `CommandProperties`, `CommandReaders`, `CommandOrder`,
`CommandProgress` and `CommandShutdown` state what follows for every interleaving; `CommandExamples` gives concrete runs.
`LockedQueue` and `LockedMap` are the two containers as classes. `WsApi.Hub` is the handler's and the
worker's code over those containers, with a gap between any two critical sections in which other
threads act; each of its methods is proved to produce a run of the transition system.

**The OSC worker** (`osc_worker.cpp`): who opens and who closes its queue, in which order its messages
are sent (`OscWorker`), that every accepted one is, and that a stop ends it (`OscProgress`).

**The SPI link** (`pi_spi.cpp`): the byte-at-a-time receiver against a recursive parser of whole
frames, the encoder against its frames, and both against each other (`SpiProtocol`, `SpiProofs`,
`SpiDevice`).

**The MIDI port** (`midi_worker.cpp`): what is sent for a message, how the stream splits again, and
what the receive callback makes of each piece (`MidiWire`).

What the proofs show about the code as it stands:

- `get` can answer "neither queued or completed" for a command that is fine. `GetMissesOnlyInWindow`
  says exactly when, `GetCanMiss` gives a run. `list`, which reads in the other order, never misses.
- The hub never runs the command worker: then nothing queued is ever started (`NeverRun`).
- The command queue is never enabled by its worker, and a push is accepted exactly when the last
  `enable` call before it switched the queue on (`AcceptedIffEnabled`): without one, every scheduled
  command is lost (`NothingAcceptedUnlessEnabled`).
- Joining the worker can hang, exactly when `stop` turns waiting off while the worker is about to look
  at an empty queue (`ShutdownCanHang`): another thread that then turns waiting on again puts it to sleep
  (`ReenabledWaitHangs`). In every other case, or if nobody does that, shutdown takes at most five
  worker steps (`ShutdownTerminates`).
- A `stop` that overtakes the OSC runner's first step leaves the queue open (`OpenAfterStop`). The stop
  ends within four runner steps (`StopTerminates`), and can hang exactly as the command worker's
  (`OscProgress.StopCanHang`).
- An empty MIDI list is sent as a header that makes the receiver swallow the next 768 bytes; a list of
  more than 127 messages is skipped. `SpiProofs.StreamRoundTrip` says exactly which messages survive.
- MIDI lists queued for the port are dropped (`ListsAreDropped`), and of the single messages that Tables
  II, V and VI of the MIDI 1.0 Detailed Specification define, system exclusive and system reset are not
  sent (`NotSent`).

Choices. Commands are named by the running number of their allocation and their uint32 id is that
number modulo 2^32. Only the statements that look a command up by its id assume fewer than 2^32
allocations; `IdsUniqueUntilWrap` shows that this is exactly when ids are unique and non-zero. The content of a
result is opaque and identified with its command. What a command's own `process()` answers, whether
the worker's call throws, and what the device's MIDI buffer answers are arbitrary. An exception from the
worker's error log before the insert counts as a throw of the work. The table of api commands is a
parameter: any mix of immediate, scheduled and failing commands. The hub constructs the handler and
the worker with two separate temporary result maps; the model has the one shared map they are written
for. The hub also never calls `run` on the command worker: what is proved about its loop, its shutdown
and its queue concerns the protocol of these classes, not the hub as it stands. Flags that the code leaves uninitialised start as false. The header with the SPI command codes is
not part of this model: bit 7 marks a MIDI header, and the other codes are distinct and below 0x80.
Every step is sequentially consistent.

## Model

| member | source | states |
|---|---|---|
| LockedQueue.Queue.Front | locked/queue.h:72-79 | a caller sleeps exactly when the queue is empty and blocking, and otherwise leaves with the head or with nothing |
| LockedQueue.Queue.Push | locked/queue.h:49-55 | appends and wakes everybody when the queue is served; otherwise the value is lost and nobody wakes |
| LockedQueue.Queue.PushFront | locked/queue.h:60-66 | the same at the other end |
| LockedQueue.Queue.DisableWait | locked/queue.h:24-29 | waiting is off and no thread is left asleep |
| LockedQueue.Queue.Remove | locked/queue.h:93-97 | the loop leaves the list without the value, order kept |
| LockedQueue.Queue.FindQorder | locked/queue.h:102-111 | the position of the first match, -1 exactly when there is none |
| LockedQueue.RemoveErasesEveryCopy | locked/queue.h:93-97 | no copy of the removed value stays, every other value keeps its number of copies, and the lengths add up |
| LockedMap.Map.Insert | locked/map.h:20-24 | the key maps to the new value, other keys are untouched |
| LockedMap.Map.Fetch | locked/map.h:30-38 | the value is handed out exactly when present, and is gone in the same critical section |
| CommandSystem.IdsUniqueUntilWrap | wsapi_handler.cpp:60 | all ids so far are non-zero and distinct exactly while fewer than 2^32 were allocated |
| CommandInvariant.KeepsGood | wsapi_worker.cpp:52-84 | every action of every thread keeps the invariant on queue, histories, flags and program counters |
| CommandInvariant.RunGood | wsapi_worker.cpp:52-84 | so it holds at the end of every interleaving, of any length |
| CommandInvariant.RunSound | locked/map.h:20-38 | while ids have not wrapped, the results map holds exactly the stored and unfetched results, each stored and fetched once |
| CommandProperties.NoGap | wsapi_worker.cpp:58-78 | in every reachable state an accepted command that did not fail and was not fetched is in the queue or in the results |
| CommandProperties.Conservation | wsapi_worker.cpp:72-79 | an accepted command is pending, a waiting result, fetched or failed; the last three exclude each other, and pending overlaps with them exactly while the worker is about to remove that command |
| CommandProperties.NoLostWakeup | locked/queue.h:72-79 | the worker sleeps unnotified only with waiting on and the queue empty |
| CommandProperties.QueueShape | wsapi_handler.cpp:63-68 | apart from the command in hand the queue is the unstarted urgent commands, latest first, on the unstarted normal ones in push order; the normal commands started are the oldest pushed |
| CommandProperties.RemoveTakesTheHand | wsapi_worker.cpp:76-79 | remove takes the processed command from wherever urgent pushes have moved it, and nothing else |
| CommandProperties.ExactlyOnce | wsapi_worker.cpp:55-79 | over any run each command is pushed, processed, given a result, removed and answered "done" at most once; a removed one was pushed and processed exactly once and got one result unless its work threw |
| CommandReaders.GetMissesOnlyInWindow | wsapi_handler.cpp:100-111 | for an accepted, unfailed, unfetched command the two-step get answers "neither" exactly when the worker's insert and then its remove both fell between the fetch and the scan |
| CommandReaders.GetAfterMissIsDone | wsapi_handler.cpp:100-103 | after such a miss the result is in the map for every later get until one has fetched it |
| CommandReaders.ListNeverMisses | wsapi_handler.cpp:127-131 | list reports every command accepted before its queue scan, not failed and not fetched before its result scan |
| CommandReaders.PosIsIndex | wsapi_handler.cpp:105-108 | the reported position is the command's place in the queue, and -1 exactly when it is not there |
| CommandExamples.GetCanMiss | wsapi_handler.cpp:100-111 | a concrete run in which get misses |
| CommandExamples.ReenabledWaitHangs | xypi_hub.cpp:54 | a concrete run: the worker at an empty queue, stop's two steps, another thread enabling waiting, the worker asleep while the stopper joins it |
| CommandOrder.RequestIsHonoured | wsapi_handler.cpp:60-72 | from the request to the queue, with any interference in between: the command with the next free id goes to the front when the request is urgent and to the back when not, if the queue is enabled at that moment, and is lost otherwise; one answered at once is stored under its id and never queued |
| CommandOrder.StartOrder | wsapi_handler.cpp:63-68 | in every continuation an urgent command is started before each command waiting when it was pushed, a normal one after each of them |
| CommandOrder.PositionAccounting | wsapi_handler.cpp:105-108 | between two scans that find the command, pos changes by the accepted urgent pushes minus the removals ahead of it, and never grows without urgent pushes |
| CommandShutdown.ShutdownTerminates | wsapi_worker.cpp:41-56 | after stop has disabled waiting the worker takes at most five more steps, is never stuck or asleep before its end, and then the join goes through: whatever other threads do to the flags unless it was just about to look at an empty queue, and in that case too if nobody re-enables waiting |
| CommandShutdown.ShutdownCanHang | wsapi_worker.cpp:43-56 | some continuation without another run() puts the worker to sleep during the join if and only if, when stop disabled waiting, it was about to look at an empty queue |
| CommandShutdown.AtMostOneMore | wsapi_worker.cpp:43-56 | once isRunning is cleared at most one more command is completed |
| CommandShutdown.NeverRun | wsapi_worker.cpp:30-47 | a worker that is never run starts and removes nothing in any run, the queue never shrinks, and no stop gets past its first step |
| CommandShutdown.SleepsForever | locked/queue.h:72-79 | a worker asleep during the join stays asleep whatever flags change and whatever pushes are rejected; only an accepted push or a spurious wakeup ends it |
| CommandShutdown.EnabledFollows | locked/queue.h:34 | the queue is enabled at the end of a run exactly as the last enable call says, or as at its start when there is none |
| CommandShutdown.AcceptedIffEnabled | locked/queue.h:49-66 | each push of a run is accepted exactly when the last enable call before it switched the queue on |
| CommandShutdown.NothingAcceptedUnlessEnabled | locked/queue.h:52 | while nobody calls enable(true) no push is accepted |
| CommandShutdown.WaitFollows | locked/queue.h:24-39 | waiting is on at the end of a run exactly as the last call that switched it says, the worker's own enableWait included |
| CommandShutdown.SleepsInsteadOfPolling | wsapi_worker.cpp:54-82 | until a stop disables waiting a worker, of the first thread or a later one, never leaves front with nothing |
| CommandProgress.QueuedIsServed | wsapi_worker.cpp:52-84 | until stop is called a queued command is removed after at most a computed number of worker steps, eight and five times its position, and five more per urgent push; until then the worker is awake and has a step to take |
| WsApi.Hub.GetCmd | wsapi_handler.cpp:94-115 | the two steps with any interference between them are a run; bad id, done, enqueued with its position and neither are answered exactly in their cases |
| WsApi.Hub.ListCmd | wsapi_handler.cpp:121-133 | requests and responses are those of the two scans, and together miss no command under way |
| WsApi.Hub.Process | wsapi_handler.cpp:60-74 | the handler's own actions are allocation, process() and then push, insert or nothing, interleaved in a run; the reply is the new id cut to 32 bits; the queue as the others left it gets the new command at its front exactly when the request or the command table says urgent, else at its back, or nothing when it is disabled |
| WsApi.Hub.PushWork | wsapi_handler.cpp:63-68 | urgent commands go to the front, others to the back, of the real queue, as the system's push does |
| WsApi.Hub.Work | wsapi_worker.cpp:65-79 | with any interference, the worker's own actions are process, insert unless it threw, and remove, in this order, and the command in hand is done before the next test of isRunning |
| WsApi.Hub.Runner | wsapi_worker.cpp:52-84 | the worker loop with any interference at every gap is a run; it makes all its passes unless the thread ends or sleeps |
| OscWorker.OpenAfterStop | osc_worker.cpp:44-60 | after the join the queue is open exactly when the runner's enable came after the stopper's; open it keeps every later push, closed it never changes |
| OscWorker.StopCanLeaveQueueOpen | osc_worker.cpp:44-60 | a run in which that happens exists |
| OscWorker.DeliveredInOrder | osc_worker.cpp:60-73 | the messages handed to send_message are the oldest accepted ones, each once and in push order; none leaves the queue unsent, at most one is sent and not yet removed, and the worker sleeps only when all are sent |
| OscWorker.OSCWorker.RunnerStep | osc_worker.cpp:56-77 | each critical section of the runner over the real queue, the hand-over to the server included, is the system's step |
| OscWorker.OSCWorker.Control | osc_worker.cpp:33-51 | run, and stop section by section, are the system's steps over the real queue |
| OscProgress.StopTerminates | osc_worker.cpp:44-60 | from disableWait on the runner, asleep before or not, takes at most four more steps, never sleeps, has a step until its end, and then the join goes through: whatever others push, and whatever they do to waiting unless it was just about to look at an empty queue, and in that case too if nobody re-enables waiting |
| OscProgress.StopCanHang | osc_worker.cpp:44-62 | some continuation puts the runner to sleep after disableWait if and only if it was at that moment about to look at an empty queue |
| OscProgress.QueuedIsSent | osc_worker.cpp:60-75 | until stop is called an accepted message is sent and removed after at most a computed number of runner steps, six and four times its position, whatever is pushed behind it; until then the runner is awake and has a step to take |
| OscProgress.SleepsInsteadOfPolling | osc_worker.cpp:58-75 | until disableWait the runner never leaves front with nothing |
| OscProgress.WaitFollows | osc_worker.cpp:47-59 | waiting is on at the end of a run exactly as the last call that switched it says |
| OscProgress.AcceptedIffOpen | osc_worker.cpp:48-58 | a push is appended, and leaves nobody asleep, exactly when the runner's enable has happened and the stopper's enable(false) has not happened since; any other push changes nothing |
| SpiProofs.DecoderRefinesGrammar | pi_spi.cpp:62-126 | on every byte stream the byte machine brings about the events of the whole-frame parser and stands where the parser's unfinished frame ends |
| SpiProofs.EmptyHeaderSwallows | pi_spi.cpp:65-101 | a zero-count MIDI header is read as 256 triples |
| SpiProofs.MessageRoundTrip | pi_spi.cpp:137-208 | one encoded message arrives as meant, at a frame boundary, exactly when the framing can carry it |
| SpiProofs.StreamRoundTrip | pi_spi.cpp:137-208 | a message stream arrives in order at every point of the stream exactly when it has no empty or overlong list and no lone byte that opens a longer frame |
| SpiProofs.BufferBound | pi_spi.cpp:60 | every frame fits a buffer exactly from 382 bytes on |
| SpiProofs.NoTornTempo | pi_spi.cpp:79-82 | set_tempo is up exactly when a tempo frame is complete and none has begun since, and then the four bytes are those of the last complete one |
| SpiProofs.Resynchronises | pi_spi.cpp:64-123 | from any state the decoder is back at a command byte after exactly the computed number of bytes, at most 768, and not before; states 0 to 7 are closed |
| SpiProofs.MidiInAccounting | pi_spi.cpp:96-102 | however the stream is cut into transfers the offered triples are those of the grammar, each is kept exactly when the device's buffer has room, and the drop flag is up exactly when one found none |
| SpiProofs.TempoRequestFollows | pi_spi.cpp:76-78 | after any byte stream tempo_requested is up exactly when the stream holds a whole send_tempo frame |
| SpiProofs.FieldsHoldLastTriple | pi_spi.cpp:88-97 | the three message fields are those of the last complete triple, unless another one has begun |
| SpiDevice.PiSpi.ProcessNextSpiByte | pi_spi.cpp:62-126 | one byte is one step of the machine, fields and tempo bytes updated in place; true exactly for a pong at a frame boundary, and tempo_requested goes up exactly for a send_tempo there |
| SpiDevice.PiSpi.ProcessTransfer | pi_spi.cpp:214-220 | a transfer is a run of the machine; only a pong that ends it is reported |
| SpiDevice.PiSpi.EncodeList | pi_spi.cpp:147-163 | the loop writes header and triples in order and nothing behind them |
| SpiDevice.PiSpi.EncodeMessage | pi_spi.cpp:137-212 | the bytes of each kind of message, written out: ping when there is nothing to send, null for an empty message, the command byte, header 0x81 or 0x80 and the count with the triples in order, code and four bytes for a tempo, nothing for more than 127; the rest of the buffer is untouched |
| SpiDevice.SendAndReceive | pi_spi.cpp:137-220 | encoder and decoder over one buffer agree exactly on the messages the framing can carry |
| MidiWire.SplitsBack | midi_worker.cpp:149-194 | the concatenated output splits back into the messages sent exactly when all transmitted data bytes are below 0x80 |
| MidiWire.StreamRoundTrip | midi_worker.cpp:149-194 | for every sequence of messages whose transmitted data bytes are below 0x80, the split output passed piece by piece through the receive callback gives back the sent messages with untransmitted fields zero |
| MidiWire.WireIsUnique | midi_worker.cpp:149-194 | two clean streams with the same bytes mean the same messages |
| MidiWire.ListsAreDropped | midi_worker.cpp:210-218 | everything queued reaches the wire exactly when no list holds a sendable message |
| MidiWire.NotSent | midi_worker.cpp:153-192 | of the defined messages exactly system exclusive, its end and system reset are not sent, and no undefined one is |
| MidiWire.WireBytes | midi_worker.cpp:149-194 | each message of a sequence is on the wire in its place: status and two bytes for 0x80-0xbf, 0xe0-0xef, 0xf2, one for 0xc0-0xdf, 0xf1, 0xf3, none for 0xf6, 0xf8, 0xfa-0xfc, 0xfe, and nothing at all for any other status |
| MidiWire.MidiWorker.SendMIDI | midi_worker.cpp:149-194 | the switch hands the port exactly those bytes, by status range, and nothing for the other status bytes |
| MidiWire.MidiWorker.OnMessage | midi_worker.cpp:79-97 | missing bytes are zero, an empty message fails, a long one is ignored, and both queues get the message as far as they are served |

## Left out

- OSC packing and parsing, the socket servers and session handlers, JSON, logging, option parsing, the HTML page and the scripts.
- The timed form of `front`: its predicate names the class instead of the list and cannot be instantiated; the untimed form is modelled.
- The loop of the SPI runner as a consumer: it never removes the message it took, so there is no delivery to state. Its encoder switch and its decoder are modelled.
- Config frames on the SPI link: the sizes of their payloads are not part of this model, and this decoder does not read them.
- `CmdMsg` sets its type to tempo and its byte to 0, so the one-byte command branch of the encoder is not reached through it as written; the branch is modelled for a message of the command type.
- Delivery of `midi_list` by the MIDI worker beyond the fact that lists are dropped.
- RtMidi, wiringPi, floating point (a tempo is four opaque bytes) and weak-memory effects of the unlocked flags.
- Starting and stopping the MIDI and OSC workers again: the OSC model covers one `run` and one `stop`; the command worker may be run again after a join.
- WsApi.Hub.Runner: watches the loop for a given number of passes and naps, because a loop that may run for ever has no terminating method; the numbers are arbitrary, so every finite part of an execution is covered, and the statements about all runs are those about the transition system.
- The two steps of `run`, the exchange of isRunning and the start of the thread, are one action, and nobody calls `run` while a `stop` is under way: a `stop` between the two steps would find no thread to join.
- A `get` request whose id does not parse as a number, a request that is not JSON or lacks a field, and an unknown command end before any step modelled here. An exception of a command's own `process()` after its id was taken is modelled, whether `process` of the handler catches it or not; which reply it leads to is not.
