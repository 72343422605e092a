# A verified model of Mutagen's concurrent cores

This project models the parts of Mutagen in which correctness depends on many goroutines
keeping to a protocol, and proves what those parts promise:

- the **stream multiplexer** (`pkg/multiplexing`): wire format, ring and message buffers, the
  write-buffer pool, one stream with its two ends, and two whole multiplexers with any number
  of streams;
- the **state tracker** (`pkg/state`), which turns state changes into answers to polling
  requests;
- the **session controllers** (`pkg/synchronization`, `pkg/forwarding`): lifecycle, flush
  requests, the ancestor in memory and on disk, connection counters;
- four smaller cores: the **directory-stack file opener** (`pkg/filesystem`), **URL parsing and
  formatting** (`pkg/url`), the **line splitter** (`pkg/stream`) and the **prompter registry**
  (`pkg/prompting`).

`dafny verify dfyconfig.toml` checks everything.

## How the concurrency is modelled

A concurrent component is a step system over an immutable state. A step is a section of one
goroutine during which no other goroutine can observe or change the same state (what a lock
protects, or a single channel operation). Every interleaving of these steps is a run, and the
theorems quantify over all runs or all reachable states. A channel closed as a signal is a
boolean or a member of a set of closed channels; a one-slot channel is its content. An
operation that would block on a full channel while it must not, send on or close a closed
channel, or find fault with its peer has an outcome of its own, so that "this never happens"
is a theorem. Fields marked *history* record what happened and influence nothing.

Code that works in place on data it owns (ring buffer, message buffer, accumulated updates,
stream object, tracker, opener, line splitter) is a class; its methods are proved to compute
the functions on which the step systems and their theorems are built.

The multiplexer is modelled in three layers. `StreamEnd` is one end of one stream: the fields of
the `Stream` object, the positions of the goroutines using it, and its share of the `enqueue`
goroutine's accumulated updates. `Link` joins two ends by their queues of messages and carries
the invariants. `Network` is two multiplexers of opposite parity with all their streams, their
accept backlogs and the frames in flight; each of its steps is, for each stream, a step of that
stream's link or nothing (`NetworkSimulation.StepFollows`), so the invariants lift. `EnqueueSteps`
ties the enqueue goroutine's accumulated updates and batches to these steps, and `SendingPath` joins
them with the write-buffer pool. `Monitor` puts one end opposite a peer that may send anything.

## Findings

- The protocol is free of self-inflicted violations exactly as long as users keep to a
  discipline: `OpenStream` calls on one multiplexer do not overlap between allocating the
  identifier and sending the open message, and `Read` is given room for at least one byte.
  `NetworkTheorems.DisciplineIsExact` proves both directions: after a single undisciplined step
  there is a continuation, disciplined throughout, in which the peer breaks off.
  `NetworkFailures.OverlappingOpensFail` and `NetworkFailures.EmptyReadFails` are two such runs
  from new multiplexers, step by step.
- `reset` does not look at `disabled` when no loop is running, so it writes a blank archive even
  after a terminate (`SyncTheorems.ResetRevivesArchive`). `SyncTheorems.DisabledArchiveIsExact`
  says when: once disabled, the archive file is written again if and only if a reset writes it, and
  `SyncTheorems.OnlyResetRewrites` that with the lock free it stays as it is in every run without
  a call of reset. The session file is never rewritten.
- Formatting an SCP-style URL drops a port of zero. `UrlRoundTrip.SSHRoundTrip` gives the exact
  condition on the URL under which reparsing gives it back: it has a port, or its path does not
  start with digits and a colon and, without a user, it is neither a host "docker" with a path
  starting with two slashes nor, on Windows, a one-letter host with a path starting with a slash
  or backslash. `UrlRoundTrip.ZeroPortIsLost` is an input where reparsing differs.
- Formatting a Docker URL drops an empty user name. `UrlRoundTrip.DockerRoundTrip` gives the
  exact condition, `UrlRoundTrip.EmptyUserIsLost` an input where reparsing differs.

## Model

| member | source | states |
|---|---|---|
| `NetworkTheorems.NoSelfInflictedViolation` | pkg/multiplexing/multiplexer.go:207-484 | from two new multiplexers of opposite parity, no disciplined run, however interleaved, reaches any of the reader goroutine's protocol-violation returns, and no readiness send blocks |
| `NetworkTheorems.DisciplineIsExact` | pkg/multiplexing/multiplexer.go:590-619 | a step leaves the two multiplexers safe from each other in every disciplined future if and only if it is itself disciplined (no overlapping opens, no empty read) |
| `NetworkTheorems.ConcurrentOpensBreak` | pkg/multiplexing/multiplexer.go:590-619 | two allocated but unsent identifiers can be sent in the wrong order, and the peer then breaks off |
| `NetworkTheorems.AnyEmptyReadBreaks` | pkg/multiplexing/stream.go:227-242 | a read of nothing announces an empty increment, which can be sent and which the peer then rejects, even if another increment was pending |
| `NetworkTheorems.DoomedBreaks` | pkg/multiplexing/multiplexer.go:207-484 | once an empty increment or an overtaken open message is in flight, the reader goroutine that just goes on reading breaks off |
| `NetworkFailures.OverlappingOpensFail` | pkg/multiplexing/multiplexer.go:590-619 | from two new multiplexers, the run that allocates 1 and 3, sends 3 before 1 and handles both open messages ends with the peer's complaint that identifiers do not increase |
| `NetworkFailures.EmptyReadFails` | pkg/multiplexing/stream.go:227-242 | from two new multiplexers, the run that opens and accepts a stream, delivers a byte and reads with an empty buffer ends with the peer's complaint about an empty increment, for any configuration that lets a byte through |
| `NetworkTheorems.DeliveredIsPrefix` | pkg/multiplexing/stream.go:191-245 | in every reachable state the bytes returned by one end's Read are a prefix of the bytes counted by the other end's Write |
| `NetworkTheorems.EofIsExact` | pkg/multiplexing/stream.go:194-211 | when Read can return EOF, everything the peer has written has been returned, and in no continuation does the peer write more |
| `NetworkTheorems.CreditIsConserved` | pkg/multiplexing/stream.go:227-242 | send window, data in flight, buffered, read, pending and announced bytes add up to the receiver's window while the stream is registered at both ends and the window advertised, and never to more |
| `NetworkTheorems.TokensAreExact` | pkg/multiplexing/stream.go:64-113 | in every reachable state a readiness channel and the goroutine that drained it hold one token between them exactly while there is data, or window and no writer has made a terminal exit with the token; otherwise none |
| `NetworkTheorems.TokenLeavesWithWriter` | pkg/multiplexing/stream.go:316-356 | of all the sections of a stream's methods, only the terminal exit of a writer that holds the token takes it away |
| `NetworkTheorems.WireOrderInEveryRun` | pkg/multiplexing/multiplexer.go:520-576 | everything an endpoint ever queues for a stream, down to a single message: open or accept first or else a lone close, no data or second half-close after a half-close, nothing after the close |
| `NetworkTheorems.FramesFitTheWire` | pkg/multiplexing/stream.go:357-373 | every message in flight has a 64-bit identifier, windows and increments within 63 bits, and data blocks of 1 to 65535 bytes |
| `NetworkTheorems.BacklogIsSound` | pkg/multiplexing/multiplexer.go:650-660 | the accept backlog never exceeds its limit and an identifier taken from it always names a registered stream that waits to be accepted |
| `StreamPromises.WriteIsComplete` | pkg/multiplexing/stream.go:256-378 | in every reachable state what a call of Write has counted is an initial part of what stood before it and then its data, and all of it when Write returns success |
| `StreamPromises.GoalIsKept` | pkg/multiplexing/stream.go:256-378 | a call of Write keeps that aim through every step of its own and of others until it returns success or gives up |
| `StreamPromises.BlockIsLargest` | pkg/multiplexing/stream.go:357-373 | the block Write takes is the front of its data, not empty, paid for from the window, and ends only with the data, at 65535 bytes or with the window used up |
| `StreamPromises.ReadIsLargest` | pkg/multiplexing/stream.go:227-234 | Read takes the oldest bytes and stops only at the size asked for or with the buffer empty; it returns none only if asked for none |
| `StreamPromises.EofWhenDrained` | pkg/multiplexing/stream.go:191-211 | once nothing is on its way to a registered end, a waiting Read can return EOF if and only if the peer has half-closed or closed and everything it has written has been returned |
| `StreamPromises.HalfCloseIsSent` | pkg/multiplexing/stream.go:382-414 | a half-close that was asked for waits to be sent or has been sent unless a close has superseded it, and no half-close is sent unasked |
| `StreamPromises.HalfCloseIsAskedFor` | pkg/multiplexing/stream.go:382-414 | whether closeWrite is to send a message stays with the call to its end |
| `StreamPromises.TimersAreReturned` | pkg/multiplexing/stream.go:152-190 | in every reachable state a deadline timer is in its channel exactly while no call uses it and no closure has taken it |
| `StreamPromises.NothingIsStuck` | pkg/multiplexing/stream.go:152-450 | in every reachable state a Read with data, a Write with window or nothing left, a closure whose timer is back and an accumulated update can go on, and new calls can begin until there is a closure |
| `Identifiers.IdentifiersAreDense` | pkg/multiplexing/multiplexer.go:590-602 | in every reachable state the outbound streams that exist are exactly those with identifiers below the next one, or all of them once identifiers are exhausted |
| `Identifiers.LookUpIsExact` | pkg/multiplexing/multiplexer.go:249-281 | whatever the peer sends, a message other than open passes the identifier checks if and only if it names a stream allocated here or, unless it is an accept, one in the range the peer has opened |
| `Identifiers.OpenIsExact` | pkg/multiplexing/multiplexer.go:249-258 | whatever the peer sends, an open message is let in if and only if its identifier is one of the peer's and higher than every earlier one |
| `Identifiers.AcceptsInOrder` | pkg/multiplexing/multiplexer.go:298-315 | in every reachable state the stream that acceptOneStream takes was opened before all others in the backlog |
| `Monitor.PeerIsHeldToProtocol` | pkg/multiplexing/multiplexer.go:316-480 | against a peer that may send anything, a run of one end goes on if and only if every message was the next in wire order, not empty, within the window and the 64-bit credit; what was taken in is then in wire order, Read has returned its data up to what is buffered, the buffer is within the window, and this end's own messages are in wire order |
| `Monitor.StepIsExact` | pkg/multiplexing/multiplexer.go:316-480 | an event is a violation if and only if it is a message that the protocol does not allow at that point, and every other event keeps the invariant |
| `Monitor.ReaderIsExact` | pkg/multiplexing/multiplexer.go:316-480 | the reader goroutine accepts a message for a registered stream if and only if the protocol allows it |
| `NetworkInvariants.StepKeepsInv` | pkg/multiplexing/multiplexer.go:207-484 | every step of two multiplexers keeps the invariant, and the reader goroutine objects if and only if it meets an empty increment or an open message whose identifier does not increase |
| `NetworkInvariants.HandleOpenOutcome` | pkg/multiplexing/multiplexer.go:249-315 | the only check on an open message that can fail is that identifiers increase; it always names an inbound stream that does not exist yet |
| `NetworkInvariants.LookUpKeepsInv` | pkg/multiplexing/multiplexer.go:249-281 | no range check fails for any other message: it is always about a stream that was opened by the right side |
| `NetworkOrder.DisciplineSuffices` | pkg/multiplexing/multiplexer.go:587-640 | a disciplined step from an orderly state never breaks off and leaves an orderly state: open messages arrive with increasing identifiers and increments are positive |
| `NetworkSimulation.StepFollows` | pkg/multiplexing/multiplexer.go:207-484 | a step of the network is, for each stream, one step of that stream's link or leaves it unchanged |
| `LinkTheorems.StepKeepsInv` | pkg/multiplexing/stream.go:152-450 | every step of one stream's two ends keeps order, credit, delivery, tokens, timers and bookkeeping, and the only possible complaint is about an empty increment |
| `LinkTheorems.EofMeansDelivered` | pkg/multiplexing/stream.go:194-211 | an end that may return EOF has returned every byte its peer has written, and its peer has half-closed or closed |
| `LinkTheorems.WireOrder` | pkg/multiplexing/stream.go:382-450 | in any log accepted by the wire order, no message follows a close and no data or half-close follows a half-close |
| `LinkTheorems.FirstMessage` | pkg/multiplexing/multiplexer.go:607-691 | the first message of an opener is open; of an acceptor it is accept, or a close that is also its last message |
| `LinkLocal.ActKeepsEnd` | pkg/multiplexing/stream.go:152-450 | no section of open, accept, write, read, close or flush blocks on a readiness channel, each keeps the end's invariants, and it leaves credit and delivery alone, moves bytes from the buffer to the reader, or queues one message that the wire order and the window allow |
| `LinkReceive.NothingUnexpected` | pkg/multiplexing/multiplexer.go:316-480 | whatever a conforming peer has in flight, the reader goroutine handles the next message unless it is an empty increment |
| `LinkReceive.HandlingKeepsInv` | pkg/multiplexing/multiplexer.go:316-480 | handling a message, found or discarded, keeps the invariant of the stream |
| `StreamObject.Stream.TakeWindow` | pkg/multiplexing/stream.go:357-365 | Write's locked section takes as much of the window as the data and a block allow, leaves the token in order and does what the step `StreamEnd.TakeWindow` does |
| `StreamObject.Stream.TakeData` | pkg/multiplexing/stream.go:227-234 | Read's locked section returns the front of the receive buffer, leaves the token in order and does what the step `StreamEnd.TakeData` does |
| `StreamObject.Stream.ReceiveData` | pkg/multiplexing/multiplexer.go:370-392 | data goes into the ring buffer and signals it exactly as the step does, or is rejected for exactly the same reason, in particular if and only if it exceeds the receive window |
| `StreamObject.Stream.ReceiveIncrement` | pkg/multiplexing/multiplexer.go:410-436 | the window is raised and signalled, or the increment rejected, as the step does |
| `StreamObject.Stream.ReceiveAccept` | pkg/multiplexing/multiplexer.go:332-348 | the initial window is installed and signalled, or the accept rejected, as the step does |
| `Codec.UvarintRoundTrip` | pkg/multiplexing/protocol.go:113-119 | every 64-bit value survives encoding and decoding, whatever follows it, and takes one to ten bytes |
| `Codec.UvarintFits` | pkg/multiplexing/multiplexer.go:282-287 | a decoded varint is a 64-bit value, whatever the input |
| `Codec.FrameRoundTrip` | pkg/multiplexing/protocol.go:132-205 | an encoded message is decoded to itself, leaving what follows |
| `Codec.FrameFits` | pkg/multiplexing/protocol.go:56-92 | every encoding is non-empty and fits its kind's declared maximum size and the write buffer |
| `Codec.FrameIncomplete` | pkg/multiplexing/multiplexer.go:216-247 | a message that has been cut short is recognized as such and never mistaken for another |
| `Codec.StreamRoundTrip` | pkg/multiplexing/multiplexer.go:216-400 | any concatenation of encoded messages followed by part of another is decoded to exactly that sequence, and the part is left over |
| `WireFormat.EncodedUvarintIsOne` | pkg/multiplexing/protocol.go:113-119 | an encoded number is the sum of its seven-bit groups, lowest first, with the top bit set in exactly the bytes before the last |
| `WireFormat.DecodedUvarintIsOne` | pkg/multiplexing/multiplexer.go:216-247 | whatever the input, decoding a number succeeds exactly on such bytes, yields their sum and leaves the rest |
| `WireFormat.EncodedIsMessage` | pkg/multiplexing/protocol.go:15-53 | the bytes of a message are its kind as a number from 0 to 6, its identifier and then its fields, the length of a block as two bytes with the high one first |
| `WireFormat.DecodedIsMessage` | pkg/multiplexing/multiplexer.go:216-400 | whatever the input, a message that is decoded is written in front of what is left, in that format |
| `WireFormat.SizesAreAttained` | pkg/multiplexing/protocol.go:56-92 | the declared maximum size of each kind is reached by some message of that kind |
| `WireTheorems.CarrierIsDecodable` | pkg/multiplexing/multiplexer.go:216-400 | in every reachable state, any part of the traffic that has arrived is decoded to exactly the messages that have arrived in full |
| `RingBuffer.Buffer.Write` | pkg/multiplexing/ring/buffer.go:88-113 | appends as much as fits, across the end of the storage, and reports a full buffer exactly if some did not |
| `RingBuffer.Buffer.WriteByte` | pkg/multiplexing/ring/buffer.go:116-141 | appends the byte unless the buffer is full, which it reports |
| `RingBuffer.Buffer.ReadNFrom` | pkg/multiplexing/ring/buffer.go:147-186 | stores exactly the requested bytes in whatever pieces the reader hands them over, or as many as there are and fit; a reader's error is kept even if the storage fills up with it, an end of input that completes the read is cleared, and otherwise a lack of storage is reported |
| `RingBuffer.Buffer.Read` | pkg/multiplexing/ring/buffer.go:189-223 | removes and returns the oldest bytes, up to the size asked for |
| `RingBuffer.Buffer.WriteTo` | pkg/multiplexing/ring/buffer.go:250-276 | writes out the contents in order until the writer fails, keeps exactly the rest, and reports a failure exactly if there was one |
| `MessageBuffer.PutUvarint` | pkg/multiplexing/protocol.go:113-119 | the scratch buffer's prefix is the varint encoding |
| `MessageBuffer.MessageBuffer.EncodeOpenMessage` | pkg/multiplexing/protocol.go:134-141 | appends exactly the message's encoding, given its maximum size in free space |
| `MessageBuffer.MessageBuffer.EncodeAcceptMessage` | pkg/multiplexing/protocol.go:143-150 | appends exactly the message's encoding, given its maximum size in free space |
| `MessageBuffer.MessageBuffer.EncodeStreamDataMessage` | pkg/multiplexing/protocol.go:153-163 | appends exactly the message's encoding, given its maximum size in free space |
| `MessageBuffer.MessageBuffer.EncodeStreamWindowIncrement` | pkg/multiplexing/protocol.go:172-178 | appends exactly the message's encoding, given its maximum size in free space |
| `MessageBuffer.MessageBuffer.EncodeStreamCloseWrite` | pkg/multiplexing/protocol.go:187-192 | appends exactly the message's encoding, given its maximum size in free space |
| `MessageBuffer.MessageBuffer.EncodeStreamClose` | pkg/multiplexing/protocol.go:201-205 | appends exactly the message's encoding, given its maximum size in free space |
| `Enqueue.Accumulator.WriteUpdates` | pkg/multiplexing/multiplexer.go:536-563 | a batch moves pending updates into the buffer without ever lacking space, at least one if any is pending and the buffer is empty, and leaves some behind only for want of room |
| `Enqueue.DrainsConserves` | pkg/multiplexing/multiplexer.go:536-563 | every update pending before a batch is either written once or still pending, and nothing else is |
| `Enqueue.Accumulator.AddWindowIncrement` | pkg/multiplexing/multiplexer.go:564-565 | the increment joins what is pending for its stream, with 64-bit wrap-around |
| `Enqueue.Accumulator.AddClose` | pkg/multiplexing/multiplexer.go:568-571 | a close supersedes every other pending update for its stream |
| `EnqueueSteps.AccumulatedIsPending` | pkg/multiplexing/multiplexer.go:520-576 | in every run of two new multiplexers, what the enqueue goroutine has accumulated by these additions and its batches is exactly what the ends of the streams wait for; no increment wraps around |
| `EnqueueSteps.StepKeepsDescription` | pkg/multiplexing/multiplexer.go:520-576 | every step of the network, matched with the addition or the flush it stands for, keeps the accumulated updates and the ends of the streams in agreement |
| `WriteBuffers.PoolIsSound` | pkg/multiplexing/multiplexer.go:487-517 | in every run with any number of borrowers: no free-space panic, no blocked send, every buffer available, pending, held or being written, every available one empty, and submissions reach the carrier in order with heartbeats only in between |
| `WriteBuffers.CarrierGetsWhatWasEncoded` | pkg/multiplexing/multiplexer.go:487-517 | in every run the frames on the carrier, heartbeats apart, and those yet to be written are what each goroutine encoded between borrowing and handing over its buffer, handover by handover |
| `WriteBuffers.BuffersComeBack` | pkg/multiplexing/multiplexer.go:487-517 | in every run with no buffer available some goroutine holds one or the writer goroutine can take one, write one out or put one back |
| `EnqueueSteps.BatchIsRun` | pkg/multiplexing/multiplexer.go:536-563 | a batch of the enqueue goroutine is a run of the network that flushes the same updates in the same order and appends the same messages |
| `SendingPath.HandoverIsPossible` | pkg/multiplexing/multiplexer.go:615-691 | whenever an opener, acceptor, writer or the enqueue goroutine can hand over the buffer it has filled, the network has steps that queue exactly the messages in it, so that the joint step exists |
| `SendingPath.CarrierOrderIsNetworkOrder` | pkg/multiplexing/multiplexer.go:487-563 | in every joint run of the network and one side's pool, the messages on the carrier, in the writer's hands and pending are those handled by the peer and in flight in the network, in the same order, and what has been handled is the beginning of what is on the carrier |
| `Tracker.Tracker.NotifyOfChange` | pkg/state/tracker.go:139-159 | the index advances with 64-bit wrap-around that skips 0, unless tracking is terminated |
| `Tracker.Tracker.Track` | pkg/state/tracker.go:86-118 | one pass answers exactly the requests that are due, into channels that are empty, and exits exactly on termination with no request left |
| `Tracker.Tracker.BeginWait` | pkg/state/tracker.go:169-200 | returns the index at once for previous index 0 or after termination, and otherwise registers the request |
| `Tracker.SameIndex` | pkg/state/tracker.go:149-155 | two equal indices are a whole number of overflow periods apart |
| `TrackerRuns.StepKeepsInv` | pkg/state/tracker.go:78-218 | every step of the loop, polling calls and writers keeps the index, the requests and responses, the loop's readiness and what is owed to each snapshot in agreement, and blocks nobody |
| `TrackerRuns.NoLostWakeup` | pkg/state/tracker.go:78-118 | whenever the loop waits with no signal on its way, tracking is not terminated and every registered request has seen the current index |
| `TrackerRuns.NoMissedUpdate` | pkg/synchronization/manager.go:251-285 | in every reachable state before termination, if something in a snapshot has changed since, the index is no longer the snapshot's, or a writer has yet to notify, or the notifications since are a positive multiple of the overflow period |
| `TrackerRuns.NoMissedWakeup` | pkg/state/tracker.go:139-218 | hence a poll on that index sleeps through the change only in the last two cases |
| `TrackerRuns.OneResponse` | pkg/state/tracker.go:98-113 | the loop never blocks on a response and no request is answered twice |
| `TrackerRuns.TerminationReachesAll` | pkg/state/tracker.go:88-96 | once the loop has exited, every call that still waits has its answer |
| `TrackerRuns.ReturnedIndexIsNew` | pkg/state/tracker.go:161-218 | a call returns a positive index, without error one that differs from the index it was given, and reports termination only after termination |
| `TrackerRuns.AnswerIsNear` | pkg/state/tracker.go:86-118 | a call that waits on an index no longer current, or after termination, has its answer, or the loop can run and then it has |
| `TrackerRuns.TerminationIsFinal` | pkg/state/tracker.go:121-147 | after termination nothing moves the index, and a call that begins then returns at once with it and reports termination |
| `TrackerRuns.IndexCountsNotifications` | pkg/state/tracker.go:139-159 | in every run the index is where the notifications made before termination bring it from 1, and versions count the changes made |
| `Tracker.IndexAdvances` | pkg/state/tracker.go:149-155 | the index starts at 1, advances by one and goes from 2^64 - 1 back to 1 |
| `SyncTheorems.OneLoop` | pkg/synchronization/controller.go:418-631 | at most one run loop is alive, none once disabled, and with the lifecycle lock free and the controller enabled Paused holds exactly when there is no cancel function and no loop |
| `SyncTheorems.SessionFileAgrees` | pkg/synchronization/controller.go:418-667 | in every run in which saves succeed the session file says Paused exactly as the controller does, as long as the controller is enabled |
| `SyncTheorems.SessionStep` | pkg/synchronization/controller.go:418-667 | a successful save writes the Paused that the controller then has, a failed one leaves the file as it was, a removal removes it, and no other step touches it |
| `SyncTheorems.DisabledSessionIsExact` | pkg/synchronization/controller.go:568-631 | in every run of a disabled controller the session file is gone if the terminate has removed it and otherwise what it was |
| `SyncTheorems.Decisions` | pkg/synchronization/controller.go:418-667 | an operation changes nothing if the controller is disabled or resume finds it connected, and otherwise cancels the loop if there is one; reset without a loop goes straight to the archive |
| `SyncTheorems.Achievements` | pkg/synchronization/controller.go:418-667 | what an operation has achieved when it releases the lock: paused or disabled without a loop, exactly one new loop, the archive blank |
| `SyncTheorems.LockIsReleased` | pkg/synchronization/controller.go:418-846 | from every reachable state, whether file operations succeed or fail, the holder of the lifecycle lock and the loop it waits for can go on by themselves, in at most 28 steps, until the lock is free |
| `SyncTheorems.HaltedUntilResumed` | pkg/synchronization/controller.go:809-814 | a loop that halts for safety takes no further step in any run but to end synchronizing and, once cancelled, to exit |
| `SyncTheorems.FailedReconnects` | pkg/synchronization/controller.go:816-846 | a loop that fails for another reason can reconnect |
| `SyncTheorems.ExitClosesOwnDone` | pkg/synchronization/controller.go:677-706 | a run loop that exits closes its own done channel, which was not closed before |
| `SyncTheorems.NeverStuck` | pkg/synchronization/controller.go:677-846 | in no run is a nil or closed channel closed or an answer to a flush request blocked |
| `SyncTheorems.DisabledIsFinal` | pkg/synchronization/controller.go:568-631 | once disabled, every step leaves the controller disabled and without a loop, the session file as it was or removed, and the archive as it was unless the step is a reset's write or a terminate's removal |
| `SyncTheorems.DisabledArchiveIsExact` | pkg/synchronization/controller.go:568-667 | in every run of a disabled controller the archive is the blank one if some reset has written it, otherwise gone if the terminate has removed it, and otherwise what it was |
| `SyncTheorems.OnlyResetRewrites` | pkg/synchronization/controller.go:568-667 | once disabled with the lifecycle lock free, the archive stays as it is in every run in which reset is not called |
| `SyncTheorems.AncestorAgrees` | pkg/synchronization/controller.go:865-873 | at the top of every iteration the ancestor in memory is the archive on disk, and a save replaces exactly the content its cycle started from |
| `SyncTheorems.AncestorIsValid` | pkg/synchronization/controller.go:866-873 | in every reachable state the ancestor from which a loop scans and reconciles has passed validation |
| `SyncTheorems.ChangedAncestorIsSaved` | pkg/synchronization/controller.go:1377-1408 | the ancestor that a cycle comes to is the one that is saved and that the next cycle starts from |
| `SyncTheorems.RecordedIsOnDisk` | pkg/synchronization/controller.go:1377-1408 | once a cycle has recorded its result, the archive on disk is what it says it saved |
| `SyncTheorems.ResetIsAlone` | pkg/synchronization/controller.go:636-667 | while reset is about to blank the archive no loop is alive |
| `SyncTheorems.BlankStays` | pkg/synchronization/controller.go:636-667 | from every reachable state in which reset is about to write, after it has written, the archive is blank along every run in which no loop reads it and no lifecycle operation touches the files |
| `SyncTheorems.ArchiveIsValidated` | pkg/synchronization/controller.go:1377-1408 | in every run the archive on disk is the initial one, removed, blank, or one that passed validation |
| `SyncTheorems.ResetRevivesArchive` | pkg/synchronization/controller.go:636-656 | in every reachable state that is disabled with the lock free, a reset brings the archive file back |
| `SyncTheorems.FlushIsHonest` | pkg/synchronization/controller.go:327-412 | a flush that was not told to skip the wait returns nil only if, after it began, its request was dequeued, at most forced scans were retried, then a whole cycle with full scans, saved ancestor and successful transitions completed, and the request was answered once |
| `SyncTheorems.FlushIsAttended` | pkg/synchronization/controller.go:388-412 | a waiting flush has its request queued, served by the loop or answered, or its synchronizing channel closed |
| `SyncTheorems.FlushBeginning` | pkg/synchronization/controller.go:327-365 | flush is refused exactly if the session is disabled, paused or not synchronizing, and otherwise holds the channels of the running loop |
| `SyncTheorems.FlushSending` | pkg/synchronization/controller.go:367-412 | a flush that sends has its own request queued and waits for the answer unless told not to; only one told not to wait may leave a request that is queued already |
| `SyncTheorems.FlushCanComplete` | pkg/synchronization/controller.go:978-1005 | from every reachable state in which a flush request waits for a loop that goes on, or is being served, there is a run in which the loop completes it |
| `SyncTheorems.FlushCanGoOn` | pkg/synchronization/controller.go:367-412 | an unfinished flush can always give up, and send, skip or complete as soon as what that takes is there |
| `SyncTheorems.FullScansAreForFlushes` | pkg/synchronization/controller.go:1017-1041 | in every reachable state each scan made was a full one exactly if a flush request was being served |
| `SyncLifecycle.StepKeepsInv` | pkg/synchronization/controller.go:418-846 | every step of lock holder, run loop and flush callers keeps lifecycle fields, synchronizing channel and archive in agreement and closes no channel twice |
| `SyncFlush.StepKeepsPlaces` | pkg/synchronization/controller.go:978-1005 | every step keeps each unanswered request in one place, and a loop that serves a request never takes another |
| `ForwardingTheorems.OneLoop` | pkg/forwarding/controller.go:277-390 | at most one run loop is alive, none once disabled, and with the lifecycle lock free and the controller enabled Paused holds exactly when there is no cancel function and no loop |
| `ForwardingTheorems.SessionFileAgrees` | pkg/forwarding/controller.go:277-480 | in every run in which saves succeed the session file says Paused exactly as the controller does, as long as the controller is enabled |
| `ForwardingTheorems.DisabledSessionIsExact` | pkg/forwarding/controller.go:421-480 | in every run of a disabled controller the session file is gone if the terminate has removed it and otherwise what it was |
| `ForwardingTheorems.Decisions` | pkg/forwarding/controller.go:277-480 | an operation changes nothing if the controller is disabled or resume finds it forwarding, and otherwise cancels the loop if there is one |
| `ForwardingTheorems.Achievements` | pkg/forwarding/controller.go:277-480 | what an operation has achieved when it releases the lock: paused or disabled without a loop, or exactly one new loop |
| `ForwardingTheorems.LockIsReleased` | pkg/forwarding/controller.go:277-690 | from every reachable state the holder of the lifecycle lock, the run loop it waits for and the forwarding loop that one waits for can go on by themselves, in at most 13 steps, until the lock is free |
| `ForwardingTheorems.ExitClosesOwnDone` | pkg/forwarding/controller.go:486-512 | a run loop that exits closes its own done channel, which was not closed before |
| `ForwardingTheorems.NeverPanics` | pkg/forwarding/controller.go:486-690 | in no run is a nil or closed done channel closed |
| `ForwardingTheorems.DisabledIsFinal` | pkg/forwarding/controller.go:421-480 | once disabled, every step leaves the controller disabled and without a loop, and the session file as it was or removed |
| `ForwardingTheorems.CountersAreExact` | pkg/forwarding/controller.go:740-755 | in every state object there has been, the open count is the number of connections counted and not yet finished and the total the number launched, modulo 2^64; short of 2^64 connections open is at most total and no decrement underflows |
| `ForwardingTheorems.StateObjectsAreSeparate` | pkg/forwarding/controller.go:699-711 | the one forwarding loop counts in the controller's current state object, and goroutines left over from earlier loops count in others |
| `Opener.Opener.OpenFile` | pkg/filesystem/open.go:81-158 | opens exactly what a fresh walk from the root would open, failing where it would fail, keeps the stack a mirror of a real path, and keeps open the part of the stack that lies on the path |
| `Opener.OpensWhatPathNames` | pkg/filesystem/open.go:81-158 | a fresh walk opens a file if and only if the path leads to it name by name through directories only, never upwards; the empty path leads to the root |
| `Opener.Opener.Truncate` | pkg/filesystem/open.go:129-142 | drops the stack from a position on, closing each dropped handle once |
| `Opener.Opener.Close` | pkg/filesystem/open.go:162-184 | afterwards every handle ever opened has been closed exactly once |
| `Opener.SplitSeparates` | pkg/filesystem/open.go:103-106 | the components contain no separator and joined give the path |
| `UrlRoundTrip.SSHRoundTrip` | pkg/url/format.go:25-44 | for every accepted SCP-style URL, reparsing its printed form gives it back if and only if it has a port, or its path does not start like one and its user, host and path do not read as a Docker URL or, on Windows, as a Windows path |
| `UrlRoundTrip.AcceptedParts` | pkg/url/parse_ssh.go:87-122 | the text of an accepted URL is its user and at sign if any, its host, a colon and what port and path are read from; the names contain no colon, the user no at sign, and neither does the host without a user |
| `UrlRoundTrip.SSHRoundTripWithoutZeroPort` | pkg/url/parse_ssh.go:78-184 | in particular whenever a port segment, if written, is not zero |
| `UrlRoundTrip.ZeroPortIsLost` | pkg/url/parse_ssh.go:134-155 | an accepted URL with port zero whose printed form parses differently |
| `UrlRoundTrip.DockerRoundTrip` | pkg/url/format.go:51-106 | for every accepted Docker URL the printer does not yield its invalid marker, and reparsing gives the URL back if and only if it has a user or no at sign in its container name |
| `UrlRoundTrip.EmptyUserIsLost` | pkg/url/parse_docker.go:67-76 | an accepted URL with an empty user name whose printed form parses differently |
| `UrlScanner.IsSCPSSHURL` | pkg/url/parse_ssh.go:32-53 | the scan classifies by whether a colon comes before every slash, Windows paths excepted on Windows |
| `UrlScanner.ParseSCPSSH` | pkg/url/parse_ssh.go:78-184 | the scanning parser computes the function that the round-trip theorems are about, errors included |
| `UrlScanner.ParseDocker` | pkg/url/parse_docker.go:45-156 | the scanning parser computes the function that the round-trip theorems are about, errors and locked-in environment included |
| `UrlMeaning.EnvironmentIsLockedIn` | pkg/url/environment.go:29-58 | an accepted Docker URL holds, for each of the seven Docker variables, the value of the endpoint's own variant if set, else that of the general one if set, else nothing; and no other variable |
| `UrlMeaning.DockerIsParsed` | pkg/url/parse_docker.go:45-156 | for any spelling of the scheme, user, container and path of the text are those of the URL, with home-relative and Windows paths recognized |
| `UrlMeaning.DockerErrors` | pkg/url/parse_docker.go:77-103 | without a slash, or with nothing before it, the container is reported missing |
| `UrlMeaning.DockerPrefix` | pkg/url/parse_docker.go:40-42 | a URL is a Docker URL exactly if it starts with the scheme in letters of any case |
| `UrlMeaning.SCPIsParsed` | pkg/url/parse_ssh.go:78-184 | user and host of the text are those of the URL, and port and path are read from what follows the colon |
| `UrlMeaning.SCPErrors` | pkg/url/parse_ssh.go:87-122 | an empty user, an empty host and a missing host are reported as such |
| `UrlMeaning.SCPPrefix` | pkg/url/parse_ssh.go:32-53 | a URL is SCP-style exactly if a colon comes before every slash and it is not, on Windows, a Windows path |
| `UrlMeaning.PortSegment` | pkg/url/parse_ssh.go:124-160 | digits before a colon are the port, rejected if empty or above 65535, and the rest is the path, rejected if empty |
| `UrlMeaning.ValueIsDecimal` | pkg/url/parse_ssh.go:134-155 | the port is the decimal value of its digits |
| `LineProcessor.LineProcessor.Write` | pkg/stream/line_processor.go:44-97 | after any accepted writes the callbacks are the trimmed lines of the concatenated input and the buffer is the unfinished line; a write is refused exactly when it would exceed the limit |
| `LineProcessor.LinesAreTrimmed` | pkg/stream/line_processor.go:20-25 | each callback is the line without its carriage return if it ends with one, and the line itself otherwise |
| `LineProcessor.LineProcessor.Shift` | pkg/stream/line_processor.go:82-92 | the overlapping copy moves the leftover bytes to the front unchanged |
| `LineProcessor.ChunksMakeNoDifference` | pkg/stream/line_processor.go:57-93 | however the input was cut into chunks, lines and remainder are those of the whole |
| `LineProcessor.LinesAreUnique` | pkg/stream/line_processor.go:27-30 | text made of lines and an unfinished line splits into just these |
| `LineProcessor.LinesAreWhole` | pkg/stream/line_processor.go:27-30 | the lines with their newlines and the remainder make up the input |
| `PrompterRegistry.PrompterIsExclusive` | pkg/prompting/registry.go:37-154 | in every run no send hits a closed holder, no holder is closed twice, no send blocks, and at most one call at a time uses a registration's prompter |
| `PrompterRegistry.UnregisteredIsQuiet` | pkg/prompting/registry.go:65-83 | once unregistration has returned, the prompter is not in use through that registration and never will be |
| `PrompterRegistry.StepSucceeds` | pkg/prompting/registry.go:65-83 | the only panic there can be is that of unregistering an identifier that is not registered, and it occurs exactly then |
| `PrompterRegistry.RegistrationStays` | pkg/prompting/registry.go:37-63 | a registration keeps its holder and prompter in every run in which its identifier is not unregistered, whatever else is registered under it |
| `PrompterRegistry.RegisterRegisters` | pkg/prompting/registry.go:37-63 | an identifier that is not empty and not in use is then registered for that prompter, which is free |
| `PrompterRegistry.CallFindsPrompter` | pkg/prompting/registry.go:88-154 | a call waits for the prompter under its identifier, uses that prompter, and returns unused only if there was none or it was unregistered meanwhile |
| `PrompterRegistry.WaitingIsServed` | pkg/prompting/registry.go:65-154 | in every run a prompter that is waited for is free, or a call that uses it can return it, or the goroutine that reclaimed it can close its holder |

## Left out

- Closing a whole multiplexer (`closeWithError`) and carrier failure: the goroutines of that endpoint stop, which in the model is a run in which they take no further steps; what the callers then return is not modelled.
- Deadlines, heartbeats and reconnect delays: expiry is a step that may always happen; nothing is said about real time or fairness; what can always go on is proved, not that it does.
- Goroutines are step systems on values rather than methods on shared objects: the controllers, the registry, `OpenStream`, `Read`, `Write` and the reader goroutine are split at their scheduling points, so their code is not a loop inside one method. The locked sections of the stream object and the tracker are methods as well.
- WriteBuffers.PoolIsSound: holds until the carrier fails, because the writer goroutine then keeps the buffer it was writing.
- Enqueue.Accumulator.WriteUpdates: the order in which streams are visited is arbitrary, as for Go maps.
- Codec: `binary.ReadUvarint`, `binary.PutUvarint` and `io.ReadFull` are modelled as the Go library documents them.
- Endpoints, scanning, staging, reconciliation and archive content: any outcome is allowed at each step; an archive is an opaque value and validation an arbitrary predicate.
- File saves: atomic, as `WriteFileAtomic` makes them; nobody else touches the files.
- Session status, problems, conflicts and progress in the state object: display only; whether the status counts as connected is an input of resume.
- TrackerRuns.NoMissedUpdate: assumes that a writer that changed state uses `Unlock`; `UnlockWithoutNotify` is used in the source only where nothing in a snapshot has changed.
- ForwardingTheorems.CountersAreExact: the bound between open and total connections stops at 2^64 connections in one state object, where the counter wraps.
- Opener.Opener.OpenFile: the tree is static and closing a directory succeeds; after a failed close the source leaves nil entries on the stack, which are not modelled. Windows handles are not modelled.
- Url: forwarding-kind URLs, local paths and non-ASCII text are not parsed; the environment and parameter suffix that formatting can add for display is not part of the text that is reparsed.
- LineProcessor.LineProcessor.Write: lengths are unbounded integers; the callback does not write back.
- Data transfer totals, labels, configuration merging, enumeration text, protobuf framing and identifiers: they would only add easy members.
