# SSS stream transport: verified model

SSS carries many reliable byte streams over channels of packets. This project models its delivery protocol and
proves what the protocol is for: nothing written is lost, bytes come out in order, an attached stream can be
delivered in full unless one of the events that spoil it happened, record boundaries survive, only what is still
wanted is sent, the tables that tie streams to channels agree, and the bookkeeping of channels balances over whole
runs. It also covers the escape codec that the shell tool runs over a stream.

Code that updates state in place is modelled by classes whose methods are proved equal to functions on values
(`StreamReceivers`, `StreamObjects`, `ShellStreams`, `AckChannels`, `EventChannels`, `CongestionControls`). The
theorems are lemmas about those functions and about runs: sequences of events of any length.

## How the parts fit

- `Options`, `Segments`, `Records`: positioned slices of a stream, and how writes are cut into them.
- `Window`, `Reassembly`, `ReassemblyProofs`, `ReassemblyRuns`, `StreamClose`, `RecordRuns`, `RecordEnds`,
  `StreamReceivers`: the receiving end.
- `StreamLayer`: any number of streams and channels of one host as one value. `StreamInvariants` states what every
  step keeps; `StreamSteps`, `StreamOps`, `StreamAttach`, `StreamHomes` and `StreamTeardown` prove it step by step;
  `StreamRuns` lifts it to runs and `StreamProgress` shows that no stream is forgotten. `StreamHistory` shows which
  steps touch the record of what was written. `StreamSending` and `StreamEffects` say what each event does in terms of
  packets, queues, positions, ids and flow control, without the functions that do it.
- `EndToEnd`: that layer, a network that loses, reorders and repeats packets, and one receiver for each stream.
  `Endings` says which events spoil a stream for good, and `Completion` that every attached stream that was not
  spoilt can still be delivered in full.
- `Dispatch`: how a data packet finds its receiver under a 16-bit id that streams use in turn.
- `StreamObjects`: streams and channels as objects that refer to one another, proved against `StreamLayer`.
- `ChannelAcks`/`AckChannels`, `TransmitEvents`/`EventChannels`, `Congestion`/`CongestionControls`,
  `SequenceNumbers`: channel state. `AckLaws`, `TransmitHistory` and `CongestionLaws` tell that state from the events of
  a run alone.
- `ShellCodec`/`ShellStreams`: the shell codec.

An assertion of the source that could fail sets `failed` in a value (or gives `None`) and is an `assert` in a method.
The theorems show that none fails, or exactly when one does: an attach packet from the peer whose id another receive
slot holds stops the host (`StreamRuns.RunFailsExactly`), and a stopped host takes no further step.

## Where the source leaves the choice open

Parts of the repository are commented out pending a rewrite; the commented text is the algorithm modelled.

- `rx_data` (lib/base_stream.cpp:1739-1876), `acknowledged` (1168-1231), the bookkeeping in `channel::transmit`
  (lib/channel.cpp:905-938), the acknowledgment word of `channel_transmit` (lib/channel.cpp:869-870), the body of
  `attach_for_transmit` (lib/base_stream.cpp:354-457), the lookup in `rx_data_packet` (1478-1511) and the attach packet
  of a known stream (1680-1699) follow the comments.
- lib/base_stream.cpp:930 compares an unsigned difference with zero; the comment above it wants order by position, so
  the difference is taken as signed.
- lib/base_stream.cpp:597 forbids writing after a closing write, but the line that would remember the close (653) is
  commented out. A run may therefore contain such writes; `Endings` says exactly when they do harm.
- lib/stream_channel.cpp:119 logs a fatal error when the search for an id takes too long; the logger is not part of
  this model. `AllocateSid` takes it for the end of the attempt; `Dispatch` is stated for both readings (`stops`).
- lib/base_stream.cpp:537-541 and 1948-1950 act on the segment's close and record flags.
- lib/base_stream.cpp:193-195: the optimized attach path is guarded as its comment says. Whether the parent or a
  receive attachment is on the same channel is one flag per stream, `piggyback`, set by the environment.
- lib/base_stream.cpp:1243-1270: the three cases stand for data, attach and datagram packets.
- A stream without a channel: `attach_for_transmit` is commented out down to the point where a channel exists, so
  asking for one does nothing and attaching is a separate event.
- lib/stream_channel.cpp:372-378 marks a copy of the table entry late. The model does the same, so an entry reported
  missed twice is queued twice; `missed` records the reports, and conservation counts only packets never reported.
- lib/stream_channel.cpp:266-276 puts a stream before others of its priority, so equal priorities are not served in turn.
- tools/shell/shell_stream.cpp:115-118 does not leave the length state after an escaped marker. The decoder is
  modelled both ways: `resets` is true for the intended machine, false for the code as written.
- Hash maps may be walked in any order: the orders are parameters of the functions and results of the methods.

## Model

| member | source | states |
|---|---|---|
| EndToEnd.NothingLost | lib/base_stream.cpp:594-656 | in every reachable state of sender, lossy/reordering/duplicating network and receivers, each byte written is in a segment that arrived, in the transmit queue, or in a packet neither acknowledged nor reported missed |
| EndToEnd.DeliveredInOrder | lib/base_stream.cpp:1736-1877 | in the same runs what was read is a prefix of what was written, and read plus readable bytes are exactly the stream up to the receive position |
| EndToEnd.AcknowledgedMeansDelivered | lib/base_stream.cpp:1150-1233 | when a stream waits for no acknowledgment, everything written to it has been read or is ready to be read |
| EndToEnd.RunOk | lib/base_stream.cpp:1036-1059 | the joint invariant of sender, network and receivers holds after any events; a packet once sent may arrive any number of times, and only packets that arrived are acknowledged |
| EndToEnd.RecordCut | lib/base_stream.cpp:599-650 | the segments a write records are slices of the stream that leave out no byte, and all of them wait for acknowledgment |
| StreamRuns.RunHealthy | lib/stream_channel.cpp:61-81 | over any run of writes, acks, losses, expiry, attachment, priorities and teardown, unless an attach packet on a taken id has stopped the host, no assertion has failed, tables agree both ways, lines are ordered, and unacknowledged segments are held |
| StreamRuns.RunFailsExactly | lib/base_stream.cpp:2151-2164 | a run fails an assertion if and only if one of its steps is an attach packet whose id another receive slot holds at that time |
| StreamRuns.AttachOnTakenId | lib/base_stream.cpp:1680-1699 | two attach packets of the peer under one id, from the start, stop the host |
| StreamRuns.StepSound | lib/base_stream.cpp:919-963 | each single step keeps the invariant, takes back no packet sent and lowers no stream counter; it fails an assertion exactly on such an attach packet |
| StreamRuns.CountersUnique | lib/stream_channel.cpp:110-129 | two attachments to one channel, however far apart, take different stream counters |
| Completion.CompletionExactly | lib/base_stream.cpp:594-656 | from every reachable state of a host that has not stopped, finitely many arrivals, acknowledgments, turns of the channel and reads bring an attached stream to the point where nothing waits for acknowledgment and all that was written has been read, if and only if no event of the run has spoilt it |
| Completion.SpoiltForGood | lib/base_stream.cpp:1807-1812 | a stream that is spoilt is never read to its end, whatever happens afterwards |
| Completion.ClosedAtEndCompletes | lib/base_stream.cpp:594-656 | in particular a stream to which nothing was written after a closing write can be completed |
| Endings.StepUnspoiltExactly | lib/base_stream.cpp:1736-1877 | a step spoils a stream if and only if the closing segment consumed last arrives again while the stream goes on behind it, or more is written once reading has ended or such a repeated segment is in the receive queue |
| Endings.RunUnspoiltExactly | lib/base_stream.cpp:1736-1877 | over whole runs a stream can be read to its end if and only if none of its events was of that kind |
| Endings.EndMeansAllReadExactly | lib/base_stream.cpp:537-541 | a receiver that has stopped reading has read everything written if and only if no event of the run spoilt the stream |
| StreamClose.ReceiveWholeExactly | lib/base_stream.cpp:1736-1877 | an arrival keeps the queue proper, and the stream readable to its end unless a closing segment repeats, for segments in any order |
| StreamClose.ReadWholeExactly | lib/base_stream.cpp:489-541 | a read neither spoils nor mends a stream, and takes at least one segment when it may |
| StreamClose.WholeSpan | lib/base_stream.cpp:489-541 | in a stream that is not spoilt no closing flag stands inside a pending record, so a read gets all that is pending |
| StreamClose.WriteAfterCloseIsLost | lib/base_stream.cpp:594-656 | bytes accepted after a closing write are never read once a second copy of the closing segment arrives, whatever follows |
| Dispatch.StraysExactly | lib/base_stream.cpp:1478-1511 | however often ids are used again and in whatever order packets arrive, a packet looked up by its id reaches another stream than its own if and only if the entry under the id is another stream's and the attach packet it records was sent before the packet's own use of the id began |
| Dispatch.NeverStrays | lib/stream_channel.cpp:110-129 | with the root stream on id 0, if the fatal error of the search for an id is the end of it, ids are never used again and every packet reaches its own stream or none |
| Dispatch.RoundStrays | lib/stream_channel.cpp:110-129 | if the search goes on behind that error, ids come round as the counter does, and three packets, each arriving once, suffice for data to reach another stream: the attach packet of the older use comes late |
| Dispatch.DataGoesAstray | lib/stream_channel.cpp:110-129 | such a run between fresh hosts with two streams and one channel |
| Dispatch.AttachLook | lib/base_stream.cpp:2151-2176 | an attach packet puts its stream under its id, with the smaller packet number if it was there before; other ids keep their entry or lose it |
| StreamProgress.WorkConserving | lib/stream_channel.cpp:61-81 | after any run that has not stopped the host, serving a channel's line stops with flow control shut, or every attached stream with something to send waits for the acknowledgment of an attach packet under way |
| StreamProgress.AllOnTheWire | lib/base_stream.cpp:114-252 | in the same runs, with flow control still open, every segment a fully attached stream waits for is in a packet that was not reported missed |
| StreamProgress.RunAwake | lib/base_stream.cpp:937-963 | in every reachable state an attached stream with something to send is in line or about to be woken; no step forgets to put it there, growth of the transmit window (lib/base_stream.cpp:285-306) included |
| StreamProgress.LinkWakes | lib/base_stream.cpp:1052-1058 | getting in line wakes a stream whatever happened to it before |
| StreamEffects.StepFair | lib/base_stream.cpp:114-252 | every step of a run sends only attach packets for attachments not yet acknowledged, datagrams, and segments their streams still wait for with no earlier one left in the queue; packets take the next numbers, each costs one unit of what flow control allows, and a channel that is ready with flow control shut sends at most one |
| StreamEffects.ServeFrontExactly | lib/base_stream.cpp:114-252 | a turn of the front stream: acknowledged segments leave the head of its queue; if nothing is left nothing is sent, otherwise exactly one packet, which carries the first frame still awaited if the attachment is acknowledged or the optimized path is open, and asks for the attachment if not |
| StreamEffects.ActsAtOnce | lib/base_stream.cpp:958-962 | writing, a datagram, growth of the transmit window (lib/base_stream.cpp:285-306), the loss of a segment and attaching transmit at once: afterwards flow control is shut on the channel of the stream, or nobody is left in its line |
| StreamEffects.RunNumbersPackets | lib/channel.cpp:918-922 | over any run the packet numbers given out on a channel are exactly those from 1 up to the next one |
| StreamSending.ServeWanted | lib/stream_channel.cpp:61-81 | a whole turn of a channel sends only what is wanted, leaves every queued frame queued, sent or acknowledged, and spends one unit a packet |
| StreamSending.LinkNowSends | lib/base_stream.cpp:937-963 | the same for a stream that gets in line and transmits at once, which sends nothing while flow control is shut |
| StreamEffects.DatagramGoesOut | lib/base_stream.cpp:704-769 | the pieces of a datagram join to the datagram, and each is queued or sent |
| StreamEffects.AckReleases | lib/base_stream.cpp:1150-1233 | an acknowledgment takes exactly its packet from the table and its segment from those waited for, sends nothing, and if it is the first for the current attachment stores the number it was received under, activates the attachment and gets the stream in line |
| StreamEffects.LossRequeues | lib/base_stream.cpp:1235-1253 | the segment of a lost packet is back in the queue of its stream or out again in a packet with a new number, unless it was acknowledged; exactly this packet counts as missed from then on |
| StreamEffects.AttachLossRetries | lib/base_stream.cpp:1255-1258 | a lost attach packet stays in the table, and its stream gets in line to try again |
| StreamEffects.DatagramLossForgets | lib/base_stream.cpp:1260-1270 | a lost datagram leaves the table, and nothing else happens |
| StreamEffects.AllocateSidExactly | lib/stream_channel.cpp:110-129 | an id is found if and only if one of the next counters within reach has a free id, and it is that of the first such counter |
| StreamEffects.AttachTakesFirstFree | lib/base_stream.cpp:354-456 | a detached stream is attached under the first free id and transmits at once what flow control allows, with all other attachments as they were; an attached stream, or one without a free id, stays as it is |
| StreamEffects.ClearDetaches | lib/base_stream.cpp:2100-2144 | clearing an attachment frees its slot and its id, takes its stream out of line and all packets of the stream out of the table; exactly the data packets among them join its queue again, and nobody else is concerned |
| StreamEffects.JoinsLine | lib/stream_channel.cpp:259-277 | a stream gets in line before all of at least its priority value and behind the others |
| StreamEffects.PriorityMoves | lib/base_stream.cpp:777-791 | the new priority is stored, in line or out of it; in line the stream moves to the place it calls for and the others keep their order |
| StreamInvariants.SizeWithout | lib/base_stream.cpp:1182-1191 | the waiting size is a sum over the waiting set from which an acknowledged segment takes exactly its own size |
| StreamSteps.FrontMayTransmit | lib/base_stream.cpp:115-120 | the assertions of transmit_on hold for the stream at the front of a line, and no stream in line has a smaller priority value |
| StreamSteps.LinkKeeps | lib/base_stream.cpp:937-963 | getting in line keeps the invariant: once each, only with something to send, in ascending priority value |
| StreamSteps.ServeFrontKeeps | lib/base_stream.cpp:114-252 | one transmission of the front stream keeps it, through garbage collection, attach packets and requeueing |
| StreamSteps.ServeKeeps | lib/stream_channel.cpp:61-81 | the whole do-while loop keeps it, however much flow control allows |
| StreamSteps.DropAckedSuffix | lib/base_stream.cpp:129-141 | all acknowledged segments leave the head of the queue, up to the first frame that is none, and nothing else does |
| StreamSteps.TransmittedIsOutstanding | lib/base_stream.cpp:1036-1050 | a data frame put on the wire is outstanding at once |
| StreamOps.InsertFrameFifo | lib/base_stream.cpp:919-933 | a frame joins the queue by position, behind every frame of the same position, and the queue stays sorted |
| StreamOps.WriteSegmentKeeps | lib/base_stream.cpp:602-648 | one pass of write_data keeps conservation and the waiting size |
| StreamOps.MissedKeeps | lib/stream_channel.cpp:361-384 | a missed packet stops counting as outstanding and its segment is back in the queue |
| StreamOps.AcknowledgedKeeps | lib/stream_channel.cpp:343-359 | an acknowledgment removes packet and segment, activates the attachment once, and keeps the invariant |
| StreamOps.ExpireKeepsExactly | lib/stream_channel.cpp:386-405 | expiry loses nothing if and only if the packet was reported missed before, carries no segment waited for, or carries one that is queued or on the wire elsewhere |
| StreamOps.EarlyExpiryLoses | lib/stream_channel.cpp:386-405 | a host with one byte on the wire that forgets it |
| StreamAttach.SetPriorityKeeps | lib/base_stream.cpp:777-791 | a stream in line moves to the place of its new priority |
| StreamAttach.WithoutAscending | lib/stream_channel.cpp:279-285 | removing a stream keeps the order of the others |
| StreamAttach.AttachForKeeps | lib/base_stream.cpp:2083-2098 | a detached stream takes a free id and slot: no assertion fails and both tables agree afterwards |
| StreamAttach.ClearKeeps | lib/base_stream.cpp:2100-2144 | the whole effect of clear: the attachment leaves slot, table and line, exactly the stream's packets leave the channel, and nothing unacknowledged is dropped |
| StreamAttach.ReclaimKeeps | lib/base_stream.cpp:2124-2143 | the loop over the packet table takes all packets of the stream and changes nothing else but its queue |
| StreamHomes.CarriesHome | include/sss/streams/base_stream.h:41-86 | packets in a table belong to streams attached to that channel, and receive tables agree with slots both ways |
| StreamHomes.ClearHomes | lib/base_stream.cpp:2112-2122 | after clear no channel holds a packet of the detached stream |
| StreamHomes.AttachForHomes | lib/stream_channel.cpp:124-128 | attaching moves the stream counter past the number it took |
| StreamHomes.RxAttachFailsExactly | lib/base_stream.cpp:2151-2164 | an attach packet trips the assertion of set_active if and only if its id belongs to another slot |
| StreamHomes.RxClearKeeps | lib/base_stream.cpp:2166-2176 | clearing a receive slot never trips its assertions and keeps the tables in agreement |
| StreamTeardown.StopEmpties | lib/stream_channel.cpp:148-167 | after stop both id tables, the packet table and the line are empty, no stream is attached, and every unacknowledged segment is still held, given that a detached stream attaches again only by an event of its own |
| StreamTeardown.DetachAllKeeps | lib/stream_channel.cpp:287-316 | packets set aside while everyone is detached are all back with their streams at the end, and the assertion about the id table holds |
| StreamHistory.AcknowledgedHistory | lib/base_stream.cpp:1150-1233 | an acknowledgment changes the record of writes only by releasing the position its data packet carries |
| StreamObjects.StreamChannel.EnqueueStream | lib/stream_channel.cpp:259-277 | the bisection finds the one place before all streams of at least this priority value |
| StreamObjects.StreamChannel.DequeueStream | lib/stream_channel.cpp:279-285 | the line without the stream, order kept |
| StreamObjects.StreamChannel.GotReadyTransmit | lib/stream_channel.cpp:61-81 | the loop on objects does what the layer does |
| StreamObjects.StreamChannel.AllocateTransmitSid | lib/stream_channel.cpp:110-129 | the first free id within the search bound, or none |
| StreamObjects.StreamChannel.Acknowledged | lib/stream_channel.cpp:343-359 | the loop over a range of packets, with the assertion on the waiting size |
| StreamObjects.StreamChannel.Missed | lib/stream_channel.cpp:361-384 | the loop over a range of packets |
| StreamObjects.StreamChannel.Expire | lib/stream_channel.cpp:386-405 | exactly the packets of the range leave the table |
| StreamObjects.StreamChannel.Stop | lib/stream_channel.cpp:148-167 | both loops over table copies, in whatever order; the channel is dead afterwards |
| StreamObjects.StreamChannel.DetachAll | lib/stream_channel.cpp:287-316 | both loops, with the packets aside; the invariant holds again at the end |
| StreamObjects.BaseStream.TransmitOn | lib/base_stream.cpp:114-252 | every assertion of transmit_on holds, the loop over acknowledged segments included, and the new state of all objects is that of the layer, which `StreamEffects.ServeFrontExactly` describes |
| StreamObjects.BaseStream.TxEnqueueChannel | lib/base_stream.cpp:937-963 | gets in line and, if asked to, transmits at once |
| StreamObjects.BaseStream.TxEnqueuePacket | lib/base_stream.cpp:919-935 | the scan finds the place behind equal positions |
| StreamObjects.BaseStream.WriteData | lib/base_stream.cpp:594-656 | the loop cuts, records and queues every segment of the write |
| StreamObjects.BaseStream.Acknowledged | lib/base_stream.cpp:1150-1233 | releases the segment once, keeps the waiting size non-negative, activates the attachment |
| StreamObjects.BaseStream.Missed | lib/base_stream.cpp:1235-1279 | data is queued again, an attachment is retried, a datagram is given up |
| StreamObjects.BaseStream.SetPriority | lib/base_stream.cpp:777-791 | leaves the line and gets in again at the new place |
| StreamObjects.BaseStream.AttachForTransmit | lib/base_stream.cpp:354-456 | an attached stream stays as it is, its slot in use as asserted; a detached one gets a free id and slot and gets in line, both assertions holding |
| StreamObjects.FreshHostHealthy | lib/base_stream.cpp:39-68 | streams and channels as their constructors leave them make a host that satisfies the invariant |
| StreamObjects.BaseStream.Clear | lib/base_stream.cpp:2100-2144 | the assertions of clear hold and the copied table is walked once |
| Segments.CutPieces | lib/base_stream.cpp:594-656 | write_data cuts a write into non-empty disjoint slices of at most mtu bytes that cover it; exactly the last carries the end flags |
| ReassemblyRuns.ReassemblySafety | lib/base_stream.cpp:1736-1877 | for arrivals in any order, repeated or overlapping, mixed with reads: bytes read followed by bytes queued are the stream up to the receive position |
| ReassemblyRuns.ReassemblyExactness | lib/base_stream.cpp:1754-1873 | the receive position is the smallest one no received segment covers; the reorder buffer is sorted, starts beyond it, and stands for every received segment that goes on beyond it, flags included |
| ReassemblyRuns.ArrivalTakenExactly | lib/base_stream.cpp:1756-1782 | a segment at or before the receive position is taken, cut down to what is new, if and only if it brings bytes, or a flag right at the position |
| ReassemblyRuns.ArrivalEndsExactly | lib/base_stream.cpp:1808-1823 | over runs an arrival ends reading if and only if it closes the stream where everything has been read |
| ReassemblyRuns.WindowFollowsBuffer | lib/base_stream.cpp:254-283 | after any events the window the sender reads from the advertised byte is at most the free space of the receive buffer and at least half of it |
| ReassemblyRuns.InsertSorted | lib/base_stream.cpp:1843-1873 | an early segment is inserted in order |
| ReassemblyProofs.ReceiveAccounts | lib/base_stream.cpp:1789-1805 | buffer use is what is readable plus what is early; readable bytes are the record sizes plus the open record; no segment crosses a record boundary |
| ReassemblyProofs.TakeAccounts | lib/base_stream.cpp:494-534 | no assertion of read_data fails on a whole segment |
| ReassemblyProofs.SpanIsRead | lib/base_stream.cpp:489-535 | what a read with room for everything gets: the pending record, or all there is, up to the end of the first closing segment |
| RecordRuns.SpanIsPending | lib/base_stream.cpp:489-535 | when nothing follows a closing segment that is the pending record size, or the bytes available without one |
| ReassemblyProofs.ReadDataSucceedsExactly | lib/base_stream.cpp:489-548 | read_data meets its assertions if and only if the buffer is empty, has room for that many bytes, or ends where a segment ends |
| ReassemblyProofs.ShortReadFails | lib/base_stream.cpp:502-508 | a buffer of one byte for a segment of two |
| ReassemblyProofs.ReadRecordSucceedsExactly | lib/base_stream.cpp:550-571 | read_record returns the front of a record and drops the rest if and only if its buffer is non-empty and has room for the record, or ends where a segment ends with at most 2^30 bytes left to skip |
| RecordRuns.RecordRoundTrip | include/sss/streams/abstract_stream.h:208-211 | records written with write_record come out as a prefix of what was written, boundaries intact, for arrivals in any order with repetition |
| RecordRuns.RecordsComplete | lib/base_stream.cpp:1938-1957 | of writes that are all records: once every segment has arrived, the records fetched and waiting are all that were written |
| RecordEnds.RecordEndsExactly | lib/base_stream.cpp:1938-1957 | after any arrivals and reads a record ends among the unread bytes exactly where a segment with the record flag or the close flag ends |
| RecordEnds.MixedWritesExactly | lib/base_stream.cpp:594-656 | for writes with and without these flags, cut and delivered in any way, exactly where a write so flagged ended |
| RecordEnds.PlainBytes | lib/base_stream.cpp:1938-1957 | if no segment has either flag no record ends, and all bytes available belong to the open one |
| StreamReceivers.StreamReceiver.ReceiveData | lib/base_stream.cpp:1736-1877 | the object in place does what the value does, whole new state; `ReassemblyRuns` and `RecordEnds` say what that is over runs |
| StreamReceivers.StreamReceiver.DrainReadahead | lib/base_stream.cpp:1779-1806 | the loop that moves early segments into order |
| StreamReceivers.StreamReceiver.ReadLoop | lib/base_stream.cpp:489-535 | the loop of read_data |
| StreamReceivers.StreamReceiver.ReadRecord | lib/base_stream.cpp:550-571 | one record, the rest of a long one skipped |
| Window.FindExponent | lib/base_stream.cpp:254-283 | the loop finds the exponent of the window byte |
| Window.WindowAgreement | lib/base_stream.cpp:285-306 | the window decoded from the exponent is at most the free space and at least half of it |
| Window.DecodeFits | lib/base_stream.cpp:290-298 | every byte from 158 on stands for a window of 2^30 - 1; only a byte below with low bits 31 stands for more, 2^31 - 1 |
| Window.GapAlwaysFillable | lib/base_stream.cpp:254-283 | while everything buffered is out of order, the advertised window leaves room for a full segment |
| ChannelAcks.AcksAreTruthful | lib/channel.cpp:1005-1077 | every acknowledgment names only numbers passed to acknowledge, or 0, at most sixteen; fewer than four are ever pending |
| ChannelAcks.PositionNeverFalls | lib/channel.cpp:1014-1022 | the receive position never falls and no acknowledgment is taken back |
| ChannelAcks.NothingUnacknowledged | lib/channel.cpp:1005-1100 | if each number is passed once, every one to be acknowledged is named by an acknowledgment or is among the last pending ones with the timer armed |
| ChannelAcks.TimeoutSettles | lib/channel.cpp:1086-1100 | when the timer fires or a data packet leaves, none is pending |
| ChannelAcks.PassAnsweredExactly | lib/channel.cpp:1013-1076 | a number passed with send_ack goes unanswered if and only if it repeats the last one received, no acknowledgment that ends there has left, and no pending one is about to |
| ChannelAcks.RepeatGoesUnanswered | lib/channel.cpp:1013-1076 | such a run |
| AckLaws.AcksExactly | lib/channel.cpp:1005-1100 | over any run the receive position is the highest number passed, the count is that of the unbroken stretch below it up to 15, the timer runs exactly while a pending number is to be acknowledged, and what leaves is exactly this: the stretch at every fourth number in a row, timeout with something pending, data packet and break in the row, and an answer to each number out of order |
| AckLaws.FullAckNames | lib/channel.cpp:1018-1020 | the acknowledgment of a stretch names all of its last sixteen numbers, or all of it |
| AckLaws.EveryFourth | lib/channel.cpp:1024-1050 | of numbers that come in a row every fourth sends an acknowledgment, whatever they ask for |
| AckLaws.CountRisesToFifteen | lib/channel.cpp:871-875 | while nothing is lost every acknowledgment goes back to the first number, and from the fifteenth on its count stays 15 |
| AckChannels.AckChannel.Acknowledge | lib/channel.cpp:1005-1077 | the fields after acknowledge, which `AckLaws` tells from the numbers passed; acknowledgments stay truthful and no wanted number is forgotten |
| AckChannels.AckChannel.AckTimeout | lib/channel.cpp:1086-1100 | when the timer fires every wanted number has been named |
| AckChannels.AckChannel.ChannelTransmit | lib/channel.cpp:863-881 | the piggybacked acknowledgment |
| TransmitEvents.TimeoutReports | lib/channel.cpp:957-1003 | a timeout reports exactly the packets in flight when it began, in order, though its callbacks transmit; if none did, nothing is in flight, as the source asserts |
| TransmitHistory.InFlightExactly | lib/channel.cpp:918-938 | over runs a packet is in flight if and only if it was sent as data and not reported missed, with the size it was sent with; numbers are given out one by one, and the counters are the number and bytes of these packets |
| TransmitHistory.TimeoutReportsExactly | lib/channel.cpp:972-986 | a timeout after any run reports exactly the data packets sent before it and never reported, in order |
| TransmitEvents.RunAccounted | lib/channel.cpp:927-938 | over runs sequence numbers match events, counters are the totals of the events marked in flight, and no packet is reported missed twice |
| EventChannels.EventChannel.RetransmitTimeout | lib/channel.cpp:972-991 | the loop with its reentrant callback |
| EventChannels.EventChannel.Transmit | lib/channel.cpp:895-947 | both assertions of the bookkeeping hold, and the packet is recorded under the number returned, in flight if it is data |
| Congestion.RunInRangeExactly | lib/channel.cpp:378-402 | over whole runs the window stays between 2 and 2^20 and the threshold at least 2 if and only if no acknowledgment in slow start wraps the 32-bit sum |
| Congestion.AckedInRangeExactly | lib/channel.cpp:764-788 | an acknowledgment takes the window out of range if and only if its 32-bit sum wraps to 0 or 1 and no round trip mends it |
| Congestion.OverflowShutsWindow | lib/channel.cpp:764-788 | an acknowledgment after which the window is 0 |
| CongestionLaws.LossesHalveExactly | lib/channel.cpp:264-288 | of all losses exactly those count that lie beyond the packets sent before the last one that counted, and k of them halve the window k times, down to 2; the threshold follows the window |
| CongestionLaws.LossesCut | lib/channel.cpp:264-299 | with no growth in between, timeouts included, k losses that count leave at most the larger of a 2^k-th of the window and 2 |
| CongestionLaws.SlowStartExactly | lib/channel.cpp:390-402 | below the threshold a window that was the limit grows by exactly the packets acknowledged until it meets the threshold or the maximum; at the threshold, where a loss leaves it, acknowledgments alone do not move it |
| CongestionLaws.TimeoutReopens | lib/channel.cpp:290-299 | a timeout leaves a window of 2 and half of what was in flight as the threshold, and the window grows from there as in slow start |
| CongestionLaws.AvoidanceExactly | lib/channel.cpp:378-388 | at or above the threshold the window grows by exactly one for each round trip during which it was the limit |
| CongestionLaws.LimitedExactly | lib/channel.cpp:844-861 | the window remembers that it was the limit if and only if the sender was refused since the last round trip ended |
| CongestionLaws.GrowthBounded | lib/channel.cpp:764-788 | whatever happens, the window grows by no more than the packets acknowledged and the round trips ended |
| Congestion.OneCutPerWindow | lib/channel.cpp:264-288 | however a run goes on after a loss that counts, losing a packet sent before it changes nothing |
| CongestionControls.CcTcp.CcAndRttUpdate | lib/channel.cpp:764-788 | the fields after an acknowledgment, in range unless the sum wraps |
| CongestionControls.CcTcp.Missed | lib/channel.cpp:264-288 | a loss beyond the mark leaves window and threshold equal, half of the old window but at least 2; any other changes nothing |
| CongestionControls.CcTcp.MayTransmit | lib/channel.cpp:844-861 | what is in flight and what may be added together never exceed the window; a refusal is remembered |
| SequenceNumbers.PacketSeqRecoveredExactly | lib/channel.cpp:1138-1157 | the full number is recovered from its low 24 bits, whatever the bits above, if and only if it lies within 2^23 of the last one received |
| SequenceNumbers.EarlyPacketSeqRecoveredExactly | lib/channel.cpp:1138-1157 | at the start of the numbering a number is recovered if and only if it lies less than 2^23 above, or so far above that 64 bits wrap |
| SequenceNumbers.LatePacketSeqRecoveredExactly | lib/channel.cpp:1138-1157 | just below the 64-bit limit a number is recovered if and only if it lies within 2^23 |
| SequenceNumbers.CounterRecoveredExactly | lib/base_stream.cpp:1908-1912 | a stream counter is recovered from its 16-bit id if and only if it lies within 2^15 of the highest received |
| SequenceNumbers.CountersAgree | lib/base_stream.cpp:1908-1912 | over a run both ends form the same counters, in whatever order streams arrive, and the receiver keeps the highest |
| SequenceNumbers.PositionOrderExactly | lib/base_stream.cpp:1754-1755 | the 32-bit difference of truncated positions is the true one if and only if that lies within 2^31 |
| ShellCodec.RoundTrip | tools/shell/shell_stream.cpp:69-144 | the intended receiver yields the bytes and messages sent, in order, for every chunking |
| ShellCodec.ChunkingIrrelevant | tools/shell/shell_stream.cpp:74-88 | the receiver observes the same however the bytes are split |
| ShellCodec.DecodeLength | tools/shell/shell_stream.cpp:104-124 | every length below 2^31 is read back, the size check does not fire, and it never looks like an escape |
| ShellCodec.WireFormat | tools/shell/shell_stream.cpp:28-66 | a data byte is sent as it is, but SOH is followed by 0x80; a message follows SOH and its length in groups of seven bits, the highest first and not zero, the top bit on the last only |
| ShellCodec.HeaderFits | tools/shell/shell_stream.cpp:50-62 | the header of such a length fits its ten bytes |
| ShellCodec.LengthsStayIntSized | tools/shell/shell_stream.cpp:104-124 | for any input the length never exceeds 2^31 - 1 |
| ShellCodec.AsWrittenRoundTripsExactly | tools/shell/shell_stream.cpp:115-118 | the code as written round-trips a transmission if and only if no data byte equal to the marker is followed by anything |
| ShellCodec.AsWrittenLosesData | tools/shell/shell_stream.cpp:115-118 | a two-byte transmission it loses |
| ShellStreams.BuildHeader | tools/shell/shell_stream.cpp:52-62 | the array filled from the back holds marker and length bytes |
| ShellStreams.ShellStream.SendData | tools/shell/shell_stream.cpp:28-44 | the scan for markers writes the encoding of the data |
| ShellStreams.ShellStream.SendControl | tools/shell/shell_stream.cpp:47-66 | the encoding of the message |
| ShellStreams.ShellStream.Receive | tools/shell/shell_stream.cpp:69-144 | each packet returned is the next part of what the decoder observes; every call ends |
| ShellStreams.ShellStream.ReceiveAll | tools/shell/client/shell_client.cpp:147-168 | calling until nothing is left returns all of it |

## Left out

- Encryption, key exchange, nonces, sockets and real timers: the ack timer is one boolean, other timers are events.
- The frame codec, and telling the kinds of received frames apart: they belong to a library that is not part of this model.
- EndToEnd.RunOk: byte positions are unbounded there; what 32-bit truncation does is `PositionOrderExactly`.
- EndToEnd.NothingLost: a packet there arrives at the receiver of the stream that sent it; lookup by id is `Dispatch`. A segment that arrives after the end of reading counts as arrived; `Endings.EndMeansAllReadExactly` says when nothing is missing then. The receiver's own acknowledgment decisions are modelled in `ChannelAcks`; here any packet that arrived may be acknowledged at any later time.
- Completion.CompletionExactly: says that an attached stream can be completed, not that a given network does it.
- Dispatch.StraysExactly: init and reply packets, which are looked up in the same table but also create streams, are not modelled, and neither are the packets of the root stream; a replay window, which the code does not implement, would only leave out runs.
- ReassemblyProofs.ReadRecordSucceedsExactly: assumes that no closing flag stands inside the record; `StreamClose.WholeSpan` shows that this holds in every stream that is not spoilt.
- StreamReceivers.StreamReceiver.ReadRecord: the same, and the assertions of the source are its precondition.
- StreamRuns.RunHealthy: says nothing of a host that an attach packet on a taken id has stopped, beyond `StepSound`; a write is non-empty, and a packet expires only after it was reported missed (include/sss/streams/base_stream.h:519-525); zero-length flagged segments share a position with the next segment.
- RecordRuns.RecordRoundTrip: the close flag comes with the last record only, as write_data forbids writes after it.
- StreamObjects.BaseStream.AttachForTransmit: where the source has no free id it logs a fatal error; here the stream stays detached. Choosing and waiting for a channel, disconnected streams, and the 64-bit stream identifiers of attach packets, are not modelled.
- StreamObjects.BaseStream.TransmitOn: throttling against the transmit window and the stream's own in-flight count are disabled in the source.
- Window.DecodeFits: a shift by 31 overflows a 32-bit int in C++, where its value is undefined; the model takes 2^31 - 1.
- AckLaws.AcksExactly: assumes near numbers, as the next line says.
- ChannelAcks.AcksAreTruthful: assumes numbers within 2^31 of the receive position, which the replay window of the receiver ensures; the difference is taken in 32 bits as in the source.
- TransmitHistory.InFlightExactly: an acknowledgment takes no packet out of flight there, as the next line says.
- TransmitEvents.RunAccounted: counts and sizes in flight are unbounded; handling of incoming acknowledgments of the channel, which would retire events, is absent from the repository.
- The root stream's attachment made when a channel is created, reset and close handshakes, and `transmit_sid_acked_`, which nothing in the repository updates.
- Floating-point round-trip statistics and the other congestion controls (`cc_vegas`, `cc_delay`, `cc_ctcp`, `cc_fixed`).
- Fairness among equal priorities and `at_end()` after a closing segment: the code gives neither.
- Datagram streams, the server, host and peer lookup, routing, service handshakes, terminals, processes and files.
- Signals and callbacks to the application, logging, and object lifetimes.
