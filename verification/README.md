# The Expansion Hub daemon's serial protocol, modelled and proved in Dafny

The daemon talks to a REV Expansion Hub over a serial line. It finds the hub, asks it for its command ids, and then
runs one transaction after the other: an opening batch of requests goes out, and once the battery, bulk and status
replies are in, a batch of motor and servo commands follows. At most eight frames are outstanding at a time. Commands
whose value the hub has acknowledged before are not sent again. A transaction that does not end within a second is
recovered from. This project models that engine, from the bytes on the wire to the values in the hub's registers, and
proves what it keeps over whole runs. `dafny verify dfyconfig.toml` checks everything.

## How it is laid out

| file | what it holds |
|---|---|
| `Bytes`, `Frames`, `Wrappers` | fixed-width integers, byte sums, the frame layout and its accessors |
| `Framer` | the receive framer: a one-byte automaton, its laws, and the bulk-copying class that refines it |
| `Messages` | message numbers, the packets the daemon builds, and how a hub reads them |
| `Caches`, `Stores`, `Batches`, `Phases`, `Meanings`, `Readings` | the ack cache, per-motor and per-servo state, the two packet batches of a transaction, what a hub does for them, the numbers in replies |
| `Protocol` | handshake, transaction machine and windowed sender as functions of a link and a store |
| `Calls`, `Runs` | what each call writes, and what holds of every run with no assumption on the other end at all |
| `Strays` | what one frame charged to an empty window does to all transactions after it |
| `HubFrames` | the hub's frames as bytes, whole, in pieces and damaged |
| `Buffers`, `Wire` | the byte buffer behind the queue, and the bytes of whole runs |
| `World` | the daemon and a hub as one state machine, and its invariant |
| `Replies`, `Steps` | every step keeps the invariant |
| `Guarantees`, `Transactions`, `Evidence`, `Remedies`, `Reconnects` | what follows for every run: caches and window, the end of a transaction, what becomes of a power cycle and what can still be done, a new device |
| `NtState`, `Daemon` | the daemon's classes, each method proved against the functions above |

The classes (`ReceiveStateMachine`, `CachedCommand`, `MotorNtState`, `ServoNtState`, `ExpansionHubNtState`,
`ExpansionHubSerial`, `ExpansionHubState`) keep the fields of the originals and update them in place. Each has a ghost
function that gives its abstract value, and each method's postcondition is an equation between the new abstract value
and a function of the old one. `DoRead`, `OnUpdate` and `AddDevice` are the entry points; what they do is `Handled`,
`FlushedBoth`, `Updated` and `Attached`, and the lemmas are about those.

## The two settings

**No hub assumed** (`Runs`, `Strays`, `Wire`, `Buffers`, `Framer`, `Daemon`). Frames of any kind arrive at any time, as
many as they like, in any order, asked for or not. They must be long enough for what is read of them, and a timer tick
must find the address and the interface id it uses; `Runs.OrderlyRunsAreAble` says which frames see to that. Proved
here: framing, checksums, buffer accounting, first-in first-out delivery, exactly when a transaction issues its command
batch, and exactly when the window counter is the number of open frames.

**A hub assumed** (`World`, `Replies`, `Steps`, `Guarantees`, `Transactions`, `Evidence`, `Remedies`, `Reconnects`).
The hub works off frames in the order they were written and may act on a frame or not. It answers a written frame at
most once, at any later time and in any order, with a reply, a refusal or something that arrives corrupted, or never;
a reply means that it acted, and echoes the frame's number. It takes frames to its own address and acts on them by
command id and payload. During the handshake it tells its own address and interface id when asked. It can lose power
at any time, which sets its registers to anything and raises its status flag; a status request with the clear byte
lowers it. Answers still under way when the daemon recovers never come, but frames still on the wire can act later. A
device can be replaced at any time. Values of subscribers, the clock and the enable input are arbitrary at every step.

## What the code does that its reader might not expect

- A second byte that does not match leaves its 0x44 in the running checksum. The first good frame after line noise
  fails its checksum unless the number of such mismatches is a multiple of 64 (`Framer.FrameAfterNoise`,
  `Framer.NoiseSpoilsFrame`); the frame after it always passes (`Framer.SecondFrameAfterNoise`).
- A refused or corrupted answer to the last handshake frame is charged to a window nothing was written to. The uint8_t
  counter wraps to 255 (`Strays.StrayMakesStuck`) and the next transaction writes its whole opening batch at once
  (`Strays.StuckSendsAll`). If that batch has its four requests only, the counter reaches zero with the third reply, the
  fourth finds the transaction over, and the commands are never sent, in this transaction or in any later one of the
  kind; there is no recovery either, because the link is ready each time (`Strays.StuckNeverIssues`). The counter is
  right exactly when the strays come to a multiple of 256 (`Runs.WindowRightIff`), and a transaction with its three
  replies has issued its batch exactly when no answer cut it short (`Runs.BatchIssuedIff`).
- The final acknowledgement is taken at any time. When it comes before the address or the interface id is known, the
  next tick starts a transaction and dereferences an empty optional (`Protocol.EarlyAckBreaksNextTick`). No other
  frame can bring that about (`Protocol.FrameKeepsTicksSafe`).
- A power cycle the daemon has been told of can still be lost: when the battery request of that transaction is refused
  no batch is issued, and the next transaction's quiet status reply overwrites the flag
  (`Evidence.RefusedBatteryLosesReset`). `Evidence.StepLosesIff` says for every step whether it loses a power cycle:
  it does if and only if the hub reads and clears its flag and no reply takes it into a batch that can still come, or a
  battery or bulk request that batch needs gets no reply, or a transaction starts while the hub's flag is down. What is
  lost stays lost until the hub loses power again or is replaced (`Evidence.LostStaysLost`), and what is not lost can
  still be acted on (`Remedies.EvidentIff`).
- One frame that gets no answer keeps its transaction from ending, whatever else is answered: only the recovery after a
  second does (`Transactions.TransactionCanEndIff`).
- A frame period is cast to uint16_t. A value of 0 or 1 modulo 65536 is never sent, so its command is tried again in
  every batch and never acknowledged (`Stores.Suppressed`).
- `StartTransaction` clears the write buffer and not the list of frame sizes. That is safe because a link that is ready
  to send has nothing queued (`Calls.Sound`, `Buffers.NothingAccounted`).

## Model

| member | source | states |
|---|---|---|
| Bytes.LittleEndianRoundTrip | expansionhub/ExpansionHubSerial.cpp:24-31 | the two bytes written for a 16-bit value, signed or unsigned, are read back as that value |
| Readings.Int32RoundTrip | expansionhub/ExpansionHubSerial.cpp:33-38 | the four bytes of a signed 32-bit value, low byte first, are read back as that value |
| Bytes.TruncateIsTowardZero | expansionhub/ExpansionHubSerial.cpp:248 | a cast of a double to an integer gives the nearest integer on the side of zero |
| Frames.AccessorsInvertEncode | expansionhub/ExpansionHubSerial.cpp:46-71 | the accessors give back every field of an encoded packet, its frame has the shape the receiver demands, and its last byte is the sum of the others |
| Frames.EncodeInjective | expansionhub/ExpansionHubSerial.cpp:300-330 | no two sendable packets have the same frame |
| Framer.FeedAppend | expansionhub/ReceiveStateMachine.h:19-98 | handling one buffer and then another delivers what their concatenation delivers and ends in the same state, storage and checksum, from every coherent state |
| Framer.ChunkingIndependence | expansionhub/ReceiveStateMachine.h:19-98 | however a stream is cut into reads, the deliveries and the final state are the same |
| Framer.BulkCopy | expansionhub/ReceiveStateMachine.h:42-84 | copying what is missing of a header or payload in one go is the same as taking its bytes one at a time |
| Framer.DeliveriesAreFrames | expansionhub/ReceiveStateMachine.h:42-92 | every delivery of every stream begins 0x44 0x4B and has length 11 to 1024, equal to its own length field |
| Framer.ChecksumLawHolds | expansionhub/ReceiveStateMachine.h:25-92 | in every reachable state the running checksum is the byte sum of the storage plus 0x44 for every second-byte mismatch since it was last zeroed, modulo 256 |
| Framer.FeedFrame | expansionhub/ReceiveStateMachine.h:19-98 | a frame read from an idle framer is delivered whole, with a checksum that starts from whatever was left over |
| Framer.StreamRoundTrip | expansionhub/ReceiveStateMachine.h:19-98 | any list of packets, encoded back to back and cut into any chunks, is delivered frame by frame and in order, and leaves the framer idle with a zero checksum |
| Framer.DeliveryCarriesPacket | expansionhub/ExpansionHubSerial.cpp:46-71 | the i-th such delivery passes the checksum test and carries the i-th packet's address, number, type and payload |
| Framer.FrameAfterNoise | expansionhub/ReceiveStateMachine.h:37-40 | after arbitrary noise that leaves the framer idle a good frame is delivered, and passes the checksum test if and only if 64 divides the number of mismatches |
| Framer.SecondFrameAfterNoise | expansionhub/ReceiveStateMachine.h:85-92 | the frame after that one always passes |
| Framer.NoiseSpoilsFrame | expansionhub/ReceiveStateMachine.h:37-40 | two bytes of noise make the next good frame fail, whatever frame it is |
| Framer.FrameAfterHalfMark | expansionhub/ReceiveStateMachine.h:37-40 | a good frame after noise that ends in a lone 0x44 is swallowed: what follows its first two bytes is read as noise, and without another 0x44 in it nothing is delivered, the framer is idle and one more mismatch is left to the next frame |
| Framer.ReceiveStateMachine.Reset | expansionhub/ReceiveStateMachine.h:13-17 | the framer is idle with a zero checksum afterwards |
| Framer.ReceiveStateMachine.AdvanceHeader | expansionhub/ReceiveStateMachine.h:42-70 | takes between one and all of the bytes and does with them what the automaton does one at a time; no subtraction underflows |
| Framer.ReceiveStateMachine.AdvancePayload | expansionhub/ReceiveStateMachine.h:71-84 | the same for payload bytes |
| Framer.ReceiveStateMachine.Advance | expansionhub/ReceiveStateMachine.h:20-97 | every pass of the loop consumes at least one byte and at most what is there, so the assertion holds and the loop ends |
| Framer.ReceiveStateMachine.HandleBytes | expansionhub/ReceiveStateMachine.h:19-98 | the class delivers what the one-byte automaton delivers for the buffer and ends in its state |
| HubFrames.AnswerParses | expansionhub/ExpansionHubSerial.cpp:402-460 | a frame of the hub is taken for what the hub meant by it, and with any other checksum for a corrupt one |
| HubFrames.AnswersReachHandler | expansionhub/ReceiveStateMachine.h:19-98 | whatever the hub answers reaches the handler as that, one by one and in order, however the bytes are cut into reads |
| HubFrames.DamageIsCaught | expansionhub/ExpansionHubSerial.cpp:403-419 | a frame with any one byte after its length field changed, the checksum byte included, is still delivered as one frame, and is taken for a corrupt one |
| Messages.NumberingTiesReplyToRegister | expansionhub/MessageNumbers.h:3-50 | a reply acknowledges a register's cache if and only if it carries the number of that register's command |
| Messages.NumberTellsAction | expansionhub/MessageNumbers.h:3-50 | of a packet the hub acts on as agreed, the number tells the register, the encoder, the status request and the three handshake requests apart, both ways |
| Messages.MotorCommandsUnderstood | expansionhub/ExpansionHubSerial.cpp:195-270 | every motor command goes to the hub's address and reaches the motor and value it was built for, a current request the motor's own channel, and its number is the one its reply is dispatched by |
| Messages.ServoCommandsUnderstood | expansionhub/ExpansionHubSerial.cpp:210-241 | the same for servo commands; a pulse width is sent if and only if it is not 0, a frame period if and only if it is above 1, and arrives as that value |
| Messages.RequestsUnderstood | expansionhub/ExpansionHubSerial.cpp:272-285 | the hub reads the keep-alive, the request for the battery channel and the bulk request as that, and the status request as one that reads the flags and clears them |
| Messages.HandshakeUnderstood | expansionhub/ExpansionHubSerial.cpp:123-171 | the discover frame reaches a hub at any address; the interface query and the final frame, built with its address and interface id, reach that hub, with the name it compares and the id it listens to |
| Messages.PowerLevelScales | expansionhub/ExpansionHubSerial.cpp:243-255 | the level is the power's share of 32767, cut off toward zero, and full scale from 1 and -1 on |
| Messages.KnownHandshakeFrames | expansionhub/ExpansionHubSerial.cpp:123-171 | the three handshake frames byte by byte, for one hub |
| Messages.KnownRequestFrames | expansionhub/ExpansionHubSerial.cpp:189-201 | five requests byte by byte, for one hub |
| Messages.KnownMotorFrames | expansionhub/ExpansionHubSerial.cpp:203-270 | four motor commands byte by byte, for one hub |
| Messages.KnownServoFrames | expansionhub/ExpansionHubSerial.cpp:210-241 | three servo commands byte by byte, for one hub |
| Messages.PowerLevelInRange | expansionhub/ExpansionHubSerial.cpp:243-255 | the power level never leaves [-32767, 32767], so the cast to int16_t does not overflow; full power is full scale and the sign is odd |
| Caches.AckSuppressesRepeat | expansionhub/CachedCommand.h:25-51 | a value sent and acknowledged is not sent again, and is sent again once the cache is reset |
| Caches.CachedCommand.ForceReset | expansionhub/CachedCommand.h:25 | the acknowledged value is forgotten and nothing else |
| Caches.CachedCommand.Ack | expansionhub/CachedCommand.h:27 | the attempted value becomes the acknowledged one |
| Caches.CachedCommand.Get | expansionhub/CachedCommand.h:29-39 | a command is returned unless the wanted value is the acknowledged one, and then becomes the attempted value with nothing acknowledged |
| Caches.CachedCommand.GetWithCanEnable | expansionhub/CachedCommand.h:41-51 | the same for the wanted value gated by the enable input |
| Stores.ForgetAllForgets | expansionhub/main.cpp:119-129 | all twenty caches lose their acknowledged value |
| Stores.AcknowledgeIsLocal | expansionhub/ExpansionHubSerial.cpp:494-573 | a reply to one register's command touches that register's cache and no other |
| Stores.FollowerPower | expansionhub/main.cpp:131-150 | a follower gets the power of the motor it names, and zero when that motor is a follower itself, does not exist, or the battery reading is still zero; every other motor gets its own |
| Batches.OpeningBatch | expansionhub/main.cpp:84-113 | the opening batch has four to fourteen packets of different numbers, none of which writes a cached register, with an encoder reset for exactly the motors whose request is open |
| Batches.OpeningSize | expansionhub/main.cpp:84-113 | whatever the interface id, the opening batch has four to fourteen packets, and four if and only if no encoder request is open or new and every pulse width is 0 modulo 65536 |
| Batches.CommandBatch | expansionhub/main.cpp:115-190 | the command batch has eight to twenty-eight packets of different numbers, each read by the hub as the write its cache attempts; a register is written if and only if its cache is left unacknowledged and the value is not a suppressed frame period |
| Batches.ResetBatchWritesEverything | expansionhub/main.cpp:119-187 | with the reset flag set, or with an empty cache, a register is written if and only if its value is not a suppressed frame period |
| Batches.OnePowerCommandPerMotor | expansionhub/main.cpp:138-150 | every batch holds exactly one power command per motor, and the hub reads it as the level to which the power of the follower rule scales |
| Meanings.OpeningMeans | expansionhub/main.cpp:84-113 | the hub does exactly this for an opening batch: it stays awake, reads and clears its status, reports battery and bulk inputs, zeroes the encoders whose request is open or new, and gives every servo its own pulse width unless that is 0 |
| Meanings.CommandMeans | expansionhub/main.cpp:115-190 | and exactly this for a command batch: every motor gets the level its power scales to, the four currents are reported, and the registers whose caches are left unacknowledged get their sampled values, except suppressed frame periods |
| Meanings.OpeningOrder | expansionhub/main.cpp:84-113 | the opening batch comes in the order keep-alive, status, encoder resets, battery, bulk, pulse widths, each by channel |
| Meanings.CommandOrder | expansionhub/main.cpp:138-187 | the command batch comes in the order powers, currents, modes, motor enables, frame periods, servo enables, each by channel |
| Meanings.NoBatteryNoPower | expansionhub/MotorNtState.cpp:29-31 | with the battery reading still 0 every motor is given level 0, whatever its mode |
| Batches.AfterAttempt | expansionhub/main.cpp:157-187 | after a batch every cache is either still acknowledged at the sampled value or attempts it with nothing acknowledged |
| Phases.PhasesAreIndependent | expansionhub/main.cpp:159-187 | the four loops over cached commands work on different caches: run one after the other they build the packets and the store of the whole batch |
| Protocol.HandleExtends | expansionhub/ExpansionHubSerial.cpp:440-460 | no received frame, whatever its kind and turn, changes an address, an interface id or a final flag once it is set; a transaction is under way only with all three, and then nothing is written directly |
| Protocol.UpdateExtends | expansionhub/main.cpp:233-267 | the same for a timer tick that is safe, and it leaves the ticks safe |
| Protocol.FrameKeepsTicksSafe | expansionhub/ExpansionHubSerial.cpp:402-460 | a received frame leaves the ticks safe if and only if it is not the final acknowledgement before the address and the interface id are known |
| Protocol.TickSafeIff | expansionhub/main.cpp:233-267 | a tick dereferences a missing address or interface id if and only if the link is not safe, whatever the clock says |
| Protocol.EarlyAckBreaksNextTick | expansionhub/ExpansionHubSerial.cpp:447-452 | on a new link that acknowledgement makes the next tick start a transaction without an address |
| Protocol.GreetIsQuiet | expansionhub/ExpansionHubSerial.cpp:440-460 | a handshake reply never touches queue, window or transaction, each fact is learned only from its own kind of reply, and at most one request follows, the one that is due |
| Protocol.SynchronizeMeans | expansionhub/ExpansionHubSerial.cpp:123-183 | what goes out around the queue is read by the hub as the request that is due, built with what was learned of it |
| Protocol.GreetMeans | expansionhub/ExpansionHubSerial.cpp:440-460 | from replies that tell the hub's own address and interface id the link learns these, and what it then sends is read as the request that is due |
| Protocol.RequestsWait | expansionhub/ExpansionHubSerial.cpp:123-171 | a handshake request is not repeated within a second |
| Protocol.RequestsComeBack | expansionhub/ExpansionHubSerial.cpp:123-171 | after a second it is |
| Protocol.RepliesAreFollowedUp | expansionhub/ExpansionHubSerial.cpp:440-460 | a reply that teaches something is followed at once by the next request, if there is one |
| Protocol.HandleConservesQueue | expansionhub/ExpansionHubSerial.cpp:402-644 | what is written followed by what stays queued is what was queued followed by what was enqueued, and the window changes by what was written less what was charged |
| Protocol.FlushConservesQueue | expansionhub/ExpansionHubSerial.cpp:361-377 | a flush moves a prefix of the queue to the wire and counts it |
| Protocol.UpdateConservesQueue | expansionhub/main.cpp:233-267 | a started transaction writes and queues exactly its opening batch, from an empty queue, and a tick that starts none writes nothing queued |
| Calls.ReadKeepsTicksSafe | expansionhub/ExpansionHubSerial.cpp:332-344 | a read leaves the ticks safe unless one of its frames is such an acknowledgement |
| Runs.CallIsLawful | expansionhub/ExpansionHubSerial.cpp:361-400 | every frame, flush and tick keeps the law of runs: the counter is the open frames less the strays as a uint8_t, only strays let more than eight be open, ready means nothing queued, and one batch at most, none if the transaction was cut |
| Runs.EveryRunIsLawful | expansionhub/ExpansionHubSerial.cpp:332-400 | so does every sequence of them, whatever is received |
| Runs.OrderlyRunsAreAble | expansionhub/ExpansionHubSerial.cpp:440-460 | in every run whose frames can be read and are no early acknowledgements, in any order, every tick is safe |
| Runs.NewSessionIsLawful | expansionhub/main.cpp:279-301 | a device just added starts lawful and safe |
| Runs.NewSessionIsFresh | expansionhub/main.cpp:192-224 | it has no counts and no acknowledged values, finds the rest of the store as it was, and has sent a discover frame |
| Runs.CountersTell | expansionhub/ExpansionHubSerial.cpp:403-438 | in every run the counters tell how many refusals and damaged frames came in and how many ticks found a transaction under a second old |
| Runs.WindowRightIff | expansionhub/ExpansionHubSerial.cpp:379-380 | in every run the counter is the number of open frames if and only if the strays since the last recovery, frames charged with none open or refusing the last handshake frame, come to a multiple of 256 and the open frames fit a uint8_t; short of 214 strays that means none, and then at most eight are open |
| Runs.BatchIssuedIff | expansionhub/ExpansionHubSerial.cpp:382-398 | in every run a transaction with its three replies has issued its batch, once, if and only if no answer cut it short |
| Runs.CutAnswersAll | expansionhub/ExpansionHubSerial.cpp:391-398 | without strays only the answer to the last open frame cuts a transaction, with nothing left to write |
| Strays.StrayMakesStuck | expansionhub/ExpansionHubSerial.cpp:425-429 | a refused or corrupted answer to the last handshake frame wraps the counter to 255, and the acknowledgement that follows leaves it there |
| Strays.StuckSendsAll | expansionhub/ExpansionHubSerial.cpp:361-377 | a transaction that starts so writes its whole opening batch at once, past the limit of eight |
| Strays.RoundIsSkipped | expansionhub/ExpansionHubSerial.cpp:379-400 | with a bare opening batch, all of it answered by replies, it has its three replies, issues nothing and leaves the counter at 255 |
| Strays.StuckNeverIssues | expansionhub/ExpansionHubSerial.cpp:379-400 | so does every one of any number of such transactions: the link is ready after each, no batch is issued and every cache stays as it was |
| Buffers.BufferAccounting | expansionhub/ExpansionHubSerial.cpp:326-328 | the cursor plus the pending sizes is the size of the buffer, and the rest of the buffer is the frames still queued |
| Buffers.FlushAccounted | expansionhub/ExpansionHubSerial.cpp:361-377 | the slice for the first k frames lies inside the buffer, holds exactly their bytes, and leaves the buffer accounted for |
| Buffers.EnqueueAccounted | expansionhub/ExpansionHubSerial.cpp:326-328 | so does enqueuing a frame |
| Buffers.NothingAccounted | expansionhub/ExpansionHubSerial.cpp:350-352 | with nothing queued the list of sizes is empty, so the buffer can be cleared without it |
| Buffers.CalcChecksum | expansionhub/ExpansionHubSerial.cpp:89-95 | the uint8_t loop computes the byte sum modulo 256 |
| Buffers.WriteUint16 | expansionhub/ExpansionHubSerial.cpp:24-27 | two bytes change, and are read back as the value |
| Buffers.BuildFrame | expansionhub/ExpansionHubSerial.cpp:305-321 | the transmit buffer starts with exactly the frame of the packet, and it fits |
| Wire.CommandSendable | expansionhub/ExpansionHubSerial.cpp:302 | no packet of any command batch trips the payload assertion |
| Wire.InitialSendable | expansionhub/ExpansionHubSerial.cpp:302 | nor does any of an opening batch |
| Wire.CallIsFaithful | expansionhub/ExpansionHubSerial.cpp:323-377 | every frame, flush and tick keeps the queue the end of what was enqueued, and the bytes written in this transaction the frames of the rest |
| Wire.NewSessionIsFaithful | expansionhub/main.cpp:279-301 | a device just added starts that way |
| Wire.EveryRunIsFaithful | expansionhub/ExpansionHubSerial.cpp:323-377 | so it is in every run, whatever is received |
| Wire.HubReceivesWhatWasSent | expansionhub/ExpansionHubSerial.cpp:361-377 | a framer at the far end, fed the write calls of a transaction, delivers exactly the packets no longer queued, in order and with good checksums; nothing is lost, repeated, reordered or mixed with a handshake frame |
| Steps.DeliverKeepsInv | expansionhub/ExpansionHubSerial.cpp:402-644 | handling any answer a hub may give is safe and keeps the invariant, also when it releases the command batch |
| Steps.TickKeepsInv | expansionhub/main.cpp:233-267 | so does starting a transaction, with or without recovery |
| Steps.FlushedKeepsInv | expansionhub/ExpansionHubSerial.cpp:343 | so does the flush that ends a read |
| Steps.ProcessLiveKeepsInv | expansionhub/ExpansionHubSerial.cpp:361-377 | so does a hub that works off a frame of the transaction and answers, or does not |
| Steps.ProcessDeadKeepsInv | expansionhub/ExpansionHubSerial.cpp:646-652 | so does a hub that works off a frame from before a recovery |
| Steps.PowerCycleKeepsInv | expansionhub/ExpansionHubSerial.cpp:465-470 | so does a hub that loses power |
| Steps.ReconnectKeepsInv | expansionhub/main.cpp:192-224 | so does a new device |
| Steps.StartHasInv | expansionhub/ExpansionHubSerial.h:82-103 | a daemon without a device satisfies it, from any store whose caches are empty |
| World.NewStoreIsFresh | expansionhub/ExpansionHubNtState.h:12-30 | the store as it is constructed is such a store |
| Steps.Run | expansionhub/main.cpp:233-267 | every state of every run satisfies the invariant |
| Guarantees.CacheCoherence | expansionhub/CachedCommand.h:25-51 | in every run a value held as acknowledged is the value in the hub's register, unless the hub lost power and no command batch has acted on that yet |
| Guarantees.SuppressionIsSafe | expansionhub/main.cpp:157-187 | a command is left out only when the register already holds the wanted value, the value is a suppressed frame period, or a power cycle is pending |
| Guarantees.WindowIsExact | expansionhub/ExpansionHubSerial.cpp:361-380 | without strays the counter is the number of written frames not yet answered, never exceeds eight, and the queue is the part of the transaction not yet written |
| Guarantees.RunEndsAtRest | expansionhub/ExpansionHubSerial.cpp:332-344 | after every read and tick either nothing is queued or the window is full |
| Guarantees.NoStall | expansionhub/ExpansionHubSerial.cpp:391-398 | a transaction is under way if and only if a written frame is unanswered |
| Guarantees.KeepAliveGoesFirst | expansionhub/main.cpp:84-87 | every transaction, also one after a recovery, writes its keep-alive first and up to eight frames at once, with no other frame open |
| Guarantees.BatchExactlyOnce | expansionhub/ExpansionHubSerial.cpp:382-389 | without strays a transaction has issued its batch if and only if its battery, bulk and status requests have all had a reply, never twice, and with the reset flag its own status reply carried |
| Guarantees.BatchConverges | expansionhub/main.cpp:157-187 | once a transaction has issued its batch, every register whose command was left out or had a reply holds the sampled value, whatever became of every other frame, except suppressed frame periods |
| Guarantees.HeldAfterBatch | expansionhub/ExpansionHubSerial.cpp:494-573 | then a register that can be sent is held as acknowledged, at the sampled value, if and only if its command was left out or had a reply |
| Guarantees.EnableOnlyWhenAllowed | expansionhub/CachedCommand.h:41-51 | an enable is enqueued as 1 only in a transaction whose starting tick was allowed to enable |
| Guarantees.DisabledMeansOff | expansionhub/CachedCommand.h:41-51 | in a transaction started without enabling allowed that has issued its batch, every enable whose command was left out or had a reply is off |
| Guarantees.EncoderResetAtLeastOnce | expansionhub/ExpansionHubSerial.cpp:471-492 | in every run a motor's encoder was zeroed by the connected device in the transaction that observed the last reset request made of it or a later one, or the request is still open |
| Guarantees.OpenRequestIsSent | expansionhub/main.cpp:89-100 | after a tick that starts a transaction a motor's request is open if and only if it was open before or the time stamp differs from the one the last such tick saw, and the transaction carries an encoder reset for exactly the open ones |
| Guarantees.AnswerClosesRequest | expansionhub/ExpansionHubSerial.cpp:471-492 | a reply to a motor's encoder reset closes its request, and no other answer touches it |
| Guarantees.AnsweredStaysAnswered | expansionhub/main.cpp:91-97 | once answered and as long as the time stamp stays the same, a request stays closed and no transaction sends a reset for it |
| Guarantees.HandshakeSafety | expansionhub/ExpansionHubSerial.cpp:123-183 | in every run with one device address, interface id and final flag are each set once, the address first and the flag last, to the hub's own; the packets written around the queue are discover frames, then interface queries, then final handshake frames, the hub reads each as that, and none is written after the flag |
| Transactions.TransactionTerminates | expansionhub/ExpansionHubSerial.cpp:379-400 | through missed loops and power cycles each answer burns fuel, whatever it is and in whatever order the answers come, and the daemon is ready to send if and only if every written frame is answered |
| Transactions.SomethingToDo | expansionhub/ExpansionHubSerial.cpp:361-400 | while the daemon is not ready there is a frame to work off and answer, or an answer to take, if and only if the answer to some open frame is not lost |
| Transactions.TransactionCanEndIff | expansionhub/ExpansionHubSerial.cpp:391-398 | a transaction can still end without a recovery if and only if no answer is lost; one frame worked off without an answer blocks it for good |
| Transactions.AnsweringHubEndsTransaction | expansionhub/ExpansionHubSerial.cpp:361-400 | a hub that answers every frame, with anything, ends the transaction: each such step leaves less work, and after as much progress as there was work the daemon is ready |
| Transactions.TransactionStarts | expansionhub/main.cpp:84-113 | a transaction starts with no answer lost, at rest, and with at most forty-two answers to come |
| Transactions.GivenUpAfterASecond | expansionhub/main.cpp:243-262 | a transaction that does not end is given up by the first tick a second or more after the one that started it and by none before; after one that ended any tick starts the next |
| Evidence.StepLosesIff | expansionhub/ExpansionHubSerial.cpp:465-470 | after a step no evidence of a power cycle is left, with the caches not reset, if and only if the step is one of the losing ones or that was so before and the step is no new power cycle or device; the losing steps are a frame that reads the hub's flag with no reply to take it into a batch that can still come, a battery or bulk request such a batch needs that gets no reply, and a tick that starts a transaction with the hub's flag down; a read never loses |
| Evidence.EvidenceSurvives | expansionhub/ExpansionHubSerial.cpp:465-470 | a run keeps every power cycle evident in every state if and only if it has no losing step |
| Evidence.LostStaysLost | expansionhub/ExpansionHubSerial.cpp:465-470 | what is lost stays lost, whatever batches follow, until the next power cycle or device |
| Remedies.EvidentIff | expansionhub/ExpansionHubSerial.cpp:382-389 | a power cycle not acted on is evident if and only if some run of answers and ticks, without another power cycle or device, issues a batch with the flag |
| Evidence.CoherentOrTold | expansionhub/ExpansionHubSerial.cpp:465-470 | in a run without losing steps a held value is right, or the hub's flag is up, or the flag is in or on its way to a transaction that can still issue its batch |
| Evidence.OverwritingComesTooLate | expansionhub/ExpansionHubSerial.cpp:468 | a quiet status reply, with the hub's own flag down, finds a power cycle that was not acted on lost already: overwriting a leftover flag loses nothing more |
| Evidence.ResetBatchActs | expansionhub/main.cpp:119-129 | a batch issued with the flag empties every cache and enqueues a write to every register that can be sent |
| Evidence.RefusedBatteryLosesReset | expansionhub/ExpansionHubSerial.cpp:382-398 | a refused battery request ends the transaction without a batch, and the next quiet status reply drops the flag with every cache as it was |
| Readings.BulkReadings | expansionhub/ExpansionHubSerial.cpp:575-588 | out of a bulk reply laid out as the hub lays it out every motor gets its own position and velocity, signed, in its own direction and unit, and keeps everything else |
| Readings.BatteryReading | expansionhub/ExpansionHubSerial.cpp:589-599 | the battery voltage is the reply's signed millivolts over a thousand, and nothing else changes |
| Readings.PowerMeaning | expansionhub/MotorNtState.cpp:27-55 | the voltage modes ask for the power that gives their volts at the present battery reading, any other mode for its setpoint, a reversed motor for the opposite, and only a follower names another motor |
| Reconnects.ReconnectUnwinds | expansionhub/main.cpp:207-215 | after a device was added no cache holds an acknowledged value |
| Reconnects.RunUnwound | expansionhub/ExpansionHubSerial.cpp:494-573 | and none does in any run until a batch is issued |
| Reconnects.FirstBatchAfterReconnect | expansionhub/main.cpp:115-190 | the first batch after a reconnect, whenever it comes, enqueues a write to every register that can be sent |
| NtState.MotorNtState.SetEncoder | expansionhub/MotorNtState.cpp:13-25 | position and velocity are the raw counts with the motor's sign and its distance per count, or one |
| NtState.MotorNtState.ComputeMotorPower | expansionhub/MotorNtState.cpp:27-55 | the mode decides between a power and a motor to follow; the controllers' results are inputs |
| NtState.ExpansionHubNtState.ForceResetAll | expansionhub/main.cpp:207-215 | the two loops empty all twenty caches and change nothing else |
| NtState.ExpansionHubNtState.Ack | expansionhub/ExpansionHubSerial.cpp:494-573 | acknowledging a register confirms its cache and changes no other |
| NtState.ExpansionHubNtState.Create | expansionhub/ExpansionHubNtState.h:12-30 | four motors and six servos with empty caches that share no object |
| NtState.ExpansionHubNtState.SetEncoders | expansionhub/ExpansionHubSerial.cpp:575-588 | the four motors get their readings from their own offsets of the bulk payload |
| NtState.ExpansionHubNtState.Record | expansionhub/ExpansionHubSerial.cpp:464-599 | the dispatch on the reference number changes the encoder request, cache, encoders or battery it names and nothing else |
| NtState.ExpansionHubNtState.CheckReset | expansionhub/main.cpp:91-97 | a new time stamp opens the motor's request, and the request is reported as it then stands |
| Daemon.ExpansionHubSerial.constructor | expansionhub/ExpansionHubSerial.h:82-103 | a new link with nothing written |
| Daemon.ExpansionHubSerial.SendPacket | expansionhub/ExpansionHubSerial.cpp:300-330 | a direct packet is one write of its frame; any other is queued and nothing is written |
| Daemon.ExpansionHubSerial.Flush | expansionhub/ExpansionHubSerial.cpp:361-377 | as many queued frames as the window allows are written in one call, all of them when the counter is past eight; size_t and uint8_t wrap as they do |
| Daemon.ExpansionHubSerial.RunSynchronousSteps | expansionhub/ExpansionHubSerial.cpp:123-183 | the handshake request that is due goes out, unless one did within the last second |
| Daemon.ExpansionHubSerial.RunDiscoverInternal | expansionhub/ExpansionHubSerial.cpp:123-135 | without an address: a discover frame to the broadcast address |
| Daemon.ExpansionHubSerial.RunInterfacePacketIdInternal | expansionhub/ExpansionHubSerial.cpp:137-155 | without an interface id: a query with the interface name and its terminating zero |
| Daemon.ExpansionHubSerial.RunFtdiConfigureInternal | expansionhub/ExpansionHubSerial.cpp:157-171 | then: the final handshake frame, with the id wrapped to 16 bits |
| Daemon.ExpansionHubSerial.SendBatteryRequest | expansionhub/ExpansionHubSerial.cpp:189-193 | exactly the battery request is queued, with the command id wrapped to 16 bits |
| Daemon.ExpansionHubSerial.SendMotorCurrentRequest | expansionhub/ExpansionHubSerial.cpp:195-201 | exactly the current request of that motor is queued |
| Daemon.ExpansionHubSerial.SendEncoderResetRequest | expansionhub/ExpansionHubSerial.cpp:203-208 | exactly the encoder reset of that motor is queued |
| Daemon.ExpansionHubSerial.SendMotorConstantPower | expansionhub/ExpansionHubSerial.cpp:243-255 | exactly the power packet of that motor is queued |
| Daemon.ExpansionHubSerial.SendServoConfiguration | expansionhub/ExpansionHubSerial.cpp:210-221 | a frame period of 0 or 1 queues nothing, any other its packet |
| Daemon.ExpansionHubSerial.SendServoPulseWidth | expansionhub/ExpansionHubSerial.cpp:223-234 | a pulse width of 0 queues nothing, any other its packet |
| Daemon.ExpansionHubSerial.SendServoEnable | expansionhub/ExpansionHubSerial.cpp:236-241 | exactly the enable packet of that servo is queued |
| Daemon.ExpansionHubSerial.SendMotorMode | expansionhub/ExpansionHubSerial.cpp:257-263 | exactly the float mode packet of that motor is queued |
| Daemon.ExpansionHubSerial.SendMotorEnable | expansionhub/ExpansionHubSerial.cpp:265-270 | exactly the enable packet of that motor is queued |
| Daemon.ExpansionHubSerial.GetModuleStatus | expansionhub/ExpansionHubSerial.cpp:272-276 | exactly the status request is queued, asking the hub to clear the flags |
| Daemon.ExpansionHubSerial.SendKeepAlive | expansionhub/ExpansionHubSerial.cpp:278-280 | exactly the keep-alive is queued |
| Daemon.ExpansionHubSerial.SendBulkInput | expansionhub/ExpansionHubSerial.cpp:282-285 | exactly the bulk request is queued |
| Daemon.ExpansionHubSerial.StartTransaction | expansionhub/ExpansionHubSerial.cpp:350-359 | the link starts afresh with a cleared buffer, from a link with nothing queued |
| Daemon.ExpansionHubSerial.Recover | expansionhub/ExpansionHubSerial.cpp:646-652 | framer, window, buffer and queue are reset, the transaction's flags are not |
| Daemon.ExpansionHubSerial.CheckForStateAdvance | expansionhub/ExpansionHubSerial.cpp:379-400 | the window is charged, the batch goes out when it is due and the transaction ends when nothing is left, on link, store and wire |
| Daemon.ExpansionHubSerial.HandleCorrupt | expansionhub/ExpansionHubSerial.cpp:403-419 | a bad checksum is counted, and charged once the interface id is known |
| Daemon.ExpansionHubSerial.HandleNack | expansionhub/ExpansionHubSerial.cpp:425-438 | a refusal is counted, and charged unless it is for one of the first two handshake frames |
| Daemon.ExpansionHubSerial.HandleDiscover | expansionhub/ExpansionHubSerial.cpp:440-446 | the address is taken from the first reply whose payload begins with 1, and the interface query follows at once |
| Daemon.ExpansionHubSerial.HandleInterface | expansionhub/ExpansionHubSerial.cpp:453-459 | the interface id is taken from the first reply, and the final handshake frame follows at once |
| Daemon.ExpansionHubSerial.HandleFtdiAck | expansionhub/ExpansionHubSerial.cpp:447-452 | the handshake is over, and nothing more is written for it |
| Daemon.ExpansionHubSerial.HandleReply | expansionhub/ExpansionHubSerial.cpp:464-644 | the reply's flag, value or acknowledgement is taken in, and then the state advances |
| Daemon.ExpansionHubSerial.HandlePayload | expansionhub/ExpansionHubSerial.cpp:402-644 | for every frame long enough to read, in any order, link, store, buffer and wire follow the specification of a received frame |
| Daemon.ExpansionHubSerial.DoRead | expansionhub/ExpansionHubSerial.cpp:332-344 | a read is framing, then every delivery in order, then one flush, and leaves the link sound |
| Daemon.ExpansionHubState.SendPowers | expansionhub/main.cpp:131-150 | one power packet per motor is queued, with a leader's power for a follower; every index is in bounds |
| Daemon.ExpansionHubState.SendCurrents | expansionhub/main.cpp:152-155 | one current request per motor is queued |
| Daemon.ExpansionHubState.SendModes | expansionhub/main.cpp:159-164 | the float modes that are not acknowledged are queued and attempted |
| Daemon.ExpansionHubState.SendEnables | expansionhub/main.cpp:166-172 | so are the gated motor enables |
| Daemon.ExpansionHubState.SendPeriods | expansionhub/main.cpp:174-179 | so are the frame periods |
| Daemon.ExpansionHubState.SendServoOns | expansionhub/main.cpp:181-187 | so are the gated servo enables |
| Daemon.ExpansionHubState.SendCommands | expansionhub/main.cpp:115-190 | the loops queue exactly the command batch, flush it, and leave the store as the batch leaves it |
| Daemon.ExpansionHubState.SendResets | expansionhub/main.cpp:89-100 | new requests are observed, and a reset is queued for exactly the motors whose request is open |
| Daemon.ExpansionHubState.SendPulses | expansionhub/main.cpp:106-110 | the pulse widths, cast to 16 bits, are queued |
| Daemon.ExpansionHubState.SendInitial | expansionhub/main.cpp:84-113 | the loops queue exactly the opening batch, flush it, and leave the requests observed |
| Daemon.ExpansionHubState.OnUpdate | expansionhub/main.cpp:233-267 | a safe tick is a handshake step, a missed loop or a new transaction, with recovery after a second, and leaves the link sound and safe; without a device it does nothing |
| Daemon.ExpansionHubState.OnDeviceAdded | expansionhub/main.cpp:192-224 | counters are zeroed, caches emptied and the callbacks set; what the link has written stays |
| Daemon.ExpansionHubState.AddDevice | expansionhub/main.cpp:279-301 | a bus that has a device ignores another; a new one is asked who it is and then connected |
| Daemon.ExpansionHubState.OnDeviceRemoved | expansionhub/main.cpp:226-231 | a device goes only when its own path is removed |

## Left out

- HandlePayload: takes only frames at least as long as what their branch reads at fixed offsets; the code does not check and would read past the payload.
- OnUpdate: takes only links whose tick is safe; on any other the code dereferences an empty optional, and `Protocol.FrameKeepsTicksSafe` says which frame leads there.
- CacheCoherence: assumes that answers still under way at a recovery never come and that a reply is never given to a frame that was not sent; `Runs` and `Wire` hold without that.
- WindowIsExact: assumes no refusal or corruption that answers a handshake frame once it would be charged; `Runs.WindowRightIff` and `Runs.BatchIssuedIff` say for all runs what happens otherwise.
- BatchExactlyOnce: makes the same assumption, as does everything about runs with a hub.
- TransactionTerminates: does not say that the hub answers; an unanswered frame is what the one-second recovery is for.
- EncoderResetAtLeastOnce: is about the device that is connected; `OnDeviceAdded` does not reopen a request the old device has answered, so a new one is not asked again.
- BatchConverges: excludes frame periods that are 0 or 1 modulo 65536, which are never sent; a command left unanswered or refused may or may not have been acted on, and its cache is empty, so that a batch from there writes it again (`Batches.ResetBatchWritesEverything`).
- FirstBatchAfterReconnect: frames the old device had not worked off when it was replaced are taken to be gone with it.
- ComputeMotorPower: powers, setpoints and battery readings are reals, so rounding, infinities and NaN are not modelled, and a follower's setpoint is taken to fit an int; what the two controllers compute is an input, as their library is not part of this model.
- DoRead: the framer's callback is taken after the bytes are framed; the handler never touches the framer, so the order is the same. A failed or empty read does nothing.
- OnDeviceAdded: publishing and subscribing of NetworkTables topics is left out; a subscriber is a value supplied at every step, and publishers, motor currents and transaction times have no effect here.
- The interface id a hub reports is taken to lie low enough that its command ids do not run into the shared ids from 0x7F00 on; the results with a hub assumed depend on that, those without one do not.
- Opening and configuring the serial port, the event loop, timers, signals and destructors are input and output around the engine.
- `SystemDUsbMonitor` and `EnabledState` are calls into the system; a device event and the enable input are inputs of a step.
- The radio, power distribution and client programs, log messages and build files hold no part of the protocol.
