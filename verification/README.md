# A model of the Android Debug Bridge, verified in Dafny

adb multiplexes many byte streams over one packet transport. A single-threaded event loop drives it, worker
threads feed it. This project models that core and proves what it promises, for all inputs, all runs and all
reachable states. `dafny verify dfyconfig.toml` checks everything.

**Streams.** `Wire`, `Asocket`, `Stream`, `Network` and `StreamTheorems` treat a local socket as a value and
join two endpoints by two FIFO channels. Any interleaving of connects, deliveries, reads, writes and hangups is a
run. The theorems are that no stream stays half open, that flow-control credit is conserved, and that bytes
arrive unchanged, from fd to fd (`FdHistory`). `PacketRules` says what each packet does to any endpoint,
expected or not. `Quiescence` adds that every run of deliveries ends, with both channels empty, and
`StreamExamples` has the runs that show which promises fail. `SocketGraph` and `SocketTable` are the heap code of
`src/sockets.cpp`: objects with peer pointers, vtables, a list and a closing list. Every handler keeps the graph
invariant. `Simulation` puts two such tables and two channels next to a network and shows each event of a socket on a
stream to be a move of the network, also the request by which a client opens one, and events of all other sockets to
be none. So the theorems about runs hold of the heap objects. `SmartRequest` decodes the requests of a client,
`Clients` follows a client over all its events, and `JoinedFlow` says which fds of two sockets joined inside one
process are subscribed.

**Event loop.** `EventLoop` is the pending list under callbacks that may do anything; what must be delivered is
defined on the history alone. `RunQueue` is every interleaving of posting threads with the main thread.

**Buffers and framing.** `IoVector` is the shared-block rope, over heap arrays that no method may modify.
`Framing` is the packet connection on top of it. `ShellProtocol` is the shell framer on exact reads and writes.

**Lifecycle.** `Transports` is registration, reference counts, the once-only error callback and the reconnect
handler; `Reconnects` is what each step decides and how often a failing transport is tried. `Listeners` is the pair
of lists that refer to each other.

**Components.** `LruCache` and `LruOrder`, `Utf8Console`, `HandleTable`, `NetAddress` and `AddressForms`. `Seqs` has
what several modules need about sequences.

## What the code does not promise

Some expected properties are false of the code. Each has an example, named first, and its exact condition.

- A poll error or hangup fakes a read. It can send a second unacknowledged WRTE (`ForcedSendHappens`); this is the
  only way (`CreditIsOneIffNoForcedSend`).
- The same read can leave a joined socket idle: neither is it subscribed to FDE_READ nor its peer to FDE_WRITE
  (`IdlePair`). This is so exactly if the socket was not reading before and its peer is not left waiting to write,
  having written all or failed (`HandoverFlows`).
- A socket on the closing list can be destroyed with bytes queued (`QueuedBytesAreLost`); this takes a failing write
  or a hangup whose read finds end of file (`ClosingEnds`).
- A request with a transport id that does not parse makes `smart_socket_enqueue` return -1 without closing its
  client, against the comment at its caller (`BadIdExample`); no other request does (`FlushNearby`), and that client
  is never served again (`Ignore`).
- A kick can be lost (`KickInFlightIsLost`, `KickCanBeLost`); it is while a registration of the transport is on its
  way or an attempt to reconnect it is in flight (`KickIsLost`), and no later kick makes up for it
  (`SecondKickDoesNothing`).
- A put that is refused may have evicted an entry (`RefusedPutExample`); it has exactly if the cache was full
  (`RefusedPut`).
- An IPv6 host with `]:` inside does not survive its canonical form (`BracketCounterexample`, `CanonicalIsStable`).
  A host with a colon behind a closing bracket, or one called tcp or udp with a command such as `1:shell`, is not
  skipped correctly (`BracketCounterexample`, `TcpCounterexample`, `SkipFindsCanonical`).
- `writable_` is never cleared, so what a short write leaves waits for the next packet (`ShortWriteWaits`); bytes
  wait exactly if the last write did not take everything (`LastWriteDecides`, `Perform`).

## Model

| member | source | states |
|---|---|---|
| Stream.ReadKeeps | src/sockets.cpp:155-222 | reading from the fd and sending, with or without end of file and with or without a subscription, keeps all that is promised of a stream |
| Stream.WriteKeeps | src/sockets.cpp:123-152 | a writable event with any write result keeps the stream invariant, including the OKAY a completed flush sends |
| Stream.PacketKeeps | src/adb.cpp:425-485 | delivery of an OKAY, CLSE or WRTE in any state of the stream keeps the stream invariant at both ends |
| Stream.FlushMoves | src/sockets.cpp:123-152 | a flush moves bytes from the queue to the fd and never drops, repeats or reorders one |
| Network.StepKeeps | src/adb.cpp:361-492 | every connect, delivery, read, hangup and write at one endpoint keeps the invariant of two endpoints and two channels |
| Network.RunKeeps | src/adb.cpp:361-492 | so does every interleaving of any length |
| StreamTheorems.NoHalfOpen | src/adb.cpp:409-472 | in every reachable state a paired listed socket has a live counterpart paired back, or one whose pairing OKAY is in flight, or a CLSE is coming or provoked; an unpaired one has its OPEN, refusal or first OKAY in flight |
| StreamTheorems.QuietBijection | src/adb.cpp:425-472 | when both channels are empty, pairing is a bijection of listed sockets, no opener is unpaired, and each direction has an fd subscribed that moves it on |
| StreamTheorems.CreditConserved | src/sockets.cpp:185-212 | the send credit of a direction is never lost; it is exactly one, with at most one WRTE unacknowledged, unless the socket was once read without FDE_READ subscribed |
| StreamTheorems.CreditIsOneIffNoForcedSend | src/fdevent.cpp:258-267 | over a whole run the credit is always exactly one if and only if no error or hangup event ever makes the socket send data unsubscribed |
| StreamExamples.ForcedSendHappens | src/fdevent.cpp:258-267 | such a run exists: a hangup right after a read, with a full buffer still to read, leaves two WRTEs of one stream in flight |
| StreamTheorems.StreamFidelity | src/sockets.cpp:123-152 | written bytes are always a prefix of the bytes handed over; with queue and in-flight payload they equal them while the receiver is listed, and after the peer's CLSE written and queued bytes are all of them |
| FdHistory.HistoriesAreTrue | src/sockets.cpp:155-222 | over every run from start-up, read off the events alone: the bytes a socket has handed over are all that its fd yielded while it had a peer, the bytes it has written are what its fd took of what it was offered, a write error is recorded exactly if a write failed, and a close by the peer exactly if its CLSE found it |
| FdHistory.FdToFd | src/sockets.cpp:123-222 | so from fd to fd: what the fd of a socket took is a prefix of what the fd of its mate yielded; the rest is queued or in flight while the socket is listed, and queued once the mate has ended the stream |
| FdHistory.DeliveredWhole | src/sockets.cpp:268-304 | a stream that its sender ended has reached the fd of its receiver whole when the receiver is destroyed, unless a write failed or a hangup cut it off |
| FdHistory.CloseDecides | src/sockets.cpp:268-304 | in every state an event closes a listed socket exactly if its fd ends or a CLSE finds it; the socket then waits on the closing list with its whole queue, exactly if there is one and no write has failed, and is destroyed otherwise |
| StreamTheorems.ClosingEnds | src/sockets.cpp:268-304 | a socket leaves the closing list if and only if its queue drained, a write failed, or a hangup read found end of file; only the first loses no queued byte |
| StreamExamples.QueuedBytesAreLost | src/sockets.cpp:293-304 | a reachable closing socket that a hangup destroys although all it was sent is not yet written |
| Quiescence.DeliveriesEnd | src/adb.cpp:361-492 | no run of deliveries is longer than the weight of packets and listed sockets at its start, whatever services answer and whatever the fds take: no packet starts an endless exchange |
| Quiescence.Quiesces | src/adb.cpp:361-492 | from every state deliveries can go on until none is possible |
| Quiescence.DeliveriesPairAll | src/adb.cpp:425-472 | whenever no delivery is possible any more after any run, both channels are empty and every listed socket is paired with a listed one that is paired back |
| StreamTheorems.ChecksHold | src/sockets.cpp:306-341 | the CHECK of local_socket_close and the unchecked peer->ready of the event function hold in every reachable state; no empty WRTE payload is ever appended |
| StreamTheorems.ReachableSwaps | src/adb.cpp:361-492 | the theorems hold for either endpoint: a run seen from the other side is a run |
| PacketRules.MalformedIgnored | src/adb.cpp:409-485 | for every endpoint and packet: one without the ids it needs, or an OPEN that names a socket, changes and sends nothing |
| PacketRules.OthersUntouched | src/adb.cpp:409-485 | no packet touches a socket it does not name |
| PacketRules.OpenMeans | src/adb.cpp:409-423 | an OPEN gets one new socket, paired with its sender and reading, and an OKAY; or a CLSE |
| PacketRules.OkayMeans | src/adb.cpp:425-448 | an OKAY lets a listed socket read that is unpaired or paired with its sender, leaves one paired with another alone, and is answered with a CLSE exactly if no listed socket has the id |
| PacketRules.ClseMeans | src/adb.cpp:450-472 | a CLSE ends the listed socket it names exactly if it comes from its peer or names no sender, and the peer of that socket is told |
| PacketRules.WrteMeans | src/adb.cpp:474-485 | a WRTE from the peer of a listed socket goes behind what is queued and is acknowledged at once exactly if nothing is left to wait for; any other is dropped |
| PacketRules.WritableMeans | src/sockets.cpp:306-325 | a writable event of a listed socket sends its peer an OKAY exactly when nothing is left to wait for |
| PacketRules.ReadMeans | src/sockets.cpp:185-222 | a readable event sends all that was read in one WRTE, then a CLSE at end of file, and pauses the socket exactly if it sent |
| PacketRules.PacketsSized | src/sockets.cpp:403-421 | in every reachable state a WRTE carries between 1 and MAX_PAYLOAD bytes and no other packet carries any |
| SocketGraph.CloseGood | src/sockets.cpp:268-304 | closing any socket that may be closed keeps the graph invariant: answered peer links, flags that agree with queues, lists that hold exactly the live and the closing sockets |
| SocketGraph.CloseIs | src/sockets.cpp:268-304 | what a close does to a stream socket and its remote peer is what the value model says |
| SocketGraph.CloseShortens | src/sockets.cpp:103-115 | each close takes at least its own socket off the list |
| SocketGraph.CloseSpares | src/sockets.cpp:103-115 | a close of a socket bound to t changes no socket that is not bound to t |
| SocketGraph.FlushIs | src/sockets.cpp:123-152 | the flush of the heap code refines the flush of the value model, result included |
| SocketGraph.WritableHasPeer | src/sockets.cpp:306-325 | a listed socket subscribed to FDE_WRITE has a peer, linked back to it |
| SocketGraph.WritableIs | src/sockets.cpp:306-325 | the writable event refines the value model and touches at most the socket and its peer |
| SocketGraph.ReadableIs | src/sockets.cpp:185-222 | sending what was read and closing at end of file refines the value model |
| SocketGraph.HandledRefines | src/adb.cpp:425-485 | an OKAY, CLSE or WRTE for a socket of a stream handled on the heap is HandlePacket of the value model on all streams of the endpoint: one changes as said, the others not at all |
| SocketGraph.OpenedRefines | src/adb.cpp:409-423 | so is an accepted OPEN |
| SocketGraph.HandOffGood | src/sockets.cpp:763-776 | handing a client socket from its smart socket to an opener keeps the graph invariant |
| SocketGraph.JoinGood | src/sockets.cpp:728-739 | so does joining it to a host service socket |
| SocketTable.Table.Close | src/sockets.cpp:268-304 | peer first, then the socket; the exact new graph, lists and CLSE sent; each of the two that is local waits on the closing list with its whole queue exactly if it has bytes to write, no write has failed and it was not closing before, and is gone otherwise |
| SocketTable.Table.CloseAll | src/sockets.cpp:103-115 | the restarted scan terminates; no listed socket is bound to t by itself or its peer any more, and those that were not are untouched; the others were closed once each, by themselves or with their peers, and told their remote peers in that order |
| SocketTable.Table.FlushIncoming | src/sockets.cpp:123-152 | new graph, result and absence of packets, for every write result |
| SocketTable.Table.FlushAndWake | src/sockets.cpp:312-325 | the exact new graph and packets of FDE_WRITE: the flush and, if it completed, ready of the peer |
| SocketTable.Table.OnWritableEvent | src/sockets.cpp:306-325 | FDE_WRITE: refines OnWritable of the value model; peer->ready is never called on null |
| SocketTable.Table.OnReadableEvent | src/sockets.cpp:155-222 | FDE_READ of a stream socket: refines OnReadable of the value model |
| SocketTable.ReadLoop | src/sockets.cpp:163-181 | however reads are split, the data is the first max bytes available, and end of file is seen exactly if it comes before them |
| SocketTable.Table.LocalEnqueue | src/sockets.cpp:224-240 | append and flush; 0 or 1 is returned exactly as the flush completed or not, never -1 |
| SocketTable.Table.RemoteEnqueue | src/sockets.cpp:403-421 | one WRTE with the two ids, and 1; more than MAX_PAYLOAD bytes are refused with -1 and nothing changes |
| SocketTable.Table.Ready | src/sockets.cpp:242-246 | ready by vtable: FDE_READ, one OKAY, or nothing |
| SocketTable.Table.Find | src/sockets.cpp:65-80 | ids are unique, so the result is the owner of the id, if listed and paired as asked; null otherwise |
| SocketTable.Table.CreateLocal | src/sockets.cpp:82-93 | a fresh id, never used before, and the socket listed under it |
| SocketTable.Table.PairWithRemote | src/sockets.cpp:460-474 | a new remote socket, linked both ways |
| SocketTable.Table.OnOkay | src/adb.cpp:425-448 | pairs an opener, readies a paired socket, ignores a wrong id, answers a missing socket with a CLSE |
| SocketTable.Table.OnClse | src/adb.cpp:450-472 | closes the socket found; one that names no sender closes a paired socket exactly if it came over the transport of its peer |
| SocketTable.Table.OnWrte | src/adb.cpp:474-485 | an OKAY at once exactly if all was written |
| SocketTable.Table.OnOpen | src/adb.cpp:409-423 | a service socket paired and readied with an OKAY, or a CLSE when there is none |
| SocketTable.Table.Serve | src/adb.cpp:409-423 | the exact new graph of a granted OPEN, its OKAY, and no socket or id forgotten |
| SocketTable.Table.Receive | src/adb.cpp:409-485 | the stream cases of handle_packet refine HandlePacket of the value model on all streams of the endpoint, next to sockets joined to local or smart ones; a CLSE from a foreign transport changes nothing |
| SocketTable.Table.ReadStep | src/sockets.cpp:155-222 | FDE_READ, subscribed or faked by a hangup, on a socket of a stream is the read or hangup step of the network model on all streams of the endpoint |
| SocketTable.Table.WriteStep | src/sockets.cpp:306-325 | so is FDE_WRITE the write step |
| SocketTable.Table.ConnectStep | src/sockets.cpp:476-493 | a new connection is the connect step: a fresh id never used before, and one OPEN |
| Simulation.System.OnConnect | src/sockets.cpp:476-493 | with two tables and two channels next to a network in step with them: a new connection at either table is a connect move of the network |
| Simulation.System.OnClient | src/sockets.cpp:815-821 | a new client of either table, with its smart socket, is no move |
| Simulation.System.OnRequest | src/sockets.cpp:155-222 | a readable event of a client or of a socket joined to a local one is no move either, except that a request for the transport is a connect move, and one at end of file is followed by the end of its stream |
| Simulation.System.OnWriteOff | src/sockets.cpp:306-325 | nor is FDE_WRITE of a socket on no stream |
| Simulation.System.OnReadOff | src/sockets.cpp:155-222 | nor a readable event of a socket on no stream that has lost its peer |
| Simulation.System.EveryEvent | src/sockets.cpp:155-222 | these are all: every live local socket of either table is on a stream, without peer, or listed with a local or smart peer |
| Simulation.System.OnRead | src/sockets.cpp:155-222 | FDE_READ, or the read a hangup fakes, at any socket on a stream of either table is a read or hangup move |
| Simulation.System.OnWrite | src/sockets.cpp:306-325 | FDE_WRITE at any socket on a stream of either table is a write move |
| Simulation.System.OnDelivery | src/adb.cpp:409-485 | handling the packet at the head of either channel is a delivery move; no CLSE of a reachable network is taken for one of a foreign transport |
| Simulation.NeverForeign | src/adb.cpp:453-467 | a CLSE that names no sender reaches only an opener without a peer, so the transport check never drops it |
| Simulation.System.QuietTables | src/adb.cpp:425-472 | so of the heap objects: with both channels empty every listed socket on a stream has a listed mate in the other table paired back, one of the two fds that move its bytes is subscribed, and all its mate handed over is at its fd or in its queue |
| SocketGraph.ElsewhereShows | src/sockets.cpp:268-304 | when one socket of a stream acts, the streams of the endpoint are as before but for its own, whatever other sockets are joined to local or smart ones |
| SocketGraph.OffShows | src/sockets.cpp:268-304 | and when sockets on no stream change, all streams are as before |
| SocketTable.Table.SmartOpen | src/sockets.cpp:763-779 | the client becomes an opener on the transport, an OPEN is sent, the smart socket is gone |
| SocketTable.Table.SmartJoin | src/sockets.cpp:728-735 | client and service socket joined both ways, the smart socket is gone |
| SmartRequest.ParseLength | src/sockets.cpp:516-560 | of four characters, 0xffffffff is returned exactly if one of them is no hexadecimal digit, and otherwise their positional value |
| SmartRequest.HexDigitsAre | src/sockets.cpp:520-551 | a byte is digit k exactly if it is the k-th of 0123456789abcdef or of 0123456789ABCDEF |
| SmartRequest.UnhexWritten | src/sockets.cpp:516-560 | every length below 0x10000 is read back from the four digits one writes for it, in any mixture of cases |
| SmartRequest.DecodeWritten | src/sockets.cpp:636-678 | a request of any length, its length written in any case, is decoded to its text, to a bad size exactly if it is empty, or to a bad id exactly if it asks for a transport id with no colon behind the number |
| SmartRequest.DecodeNul | src/sockets.cpp:656-678 | the text of a request ends at its first NUL |
| SmartRequest.BadSizeIff | src/sockets.cpp:642-646 | the size is bad exactly if the four bytes are no length or the length 0 |
| SmartRequest.MoreIff | src/sockets.cpp:636-654 | more is waited for exactly while four bytes or the bytes of the stated length have not come |
| SmartRequest.NumberReads | src/sockets.cpp:672-679 | the number ends behind blanks, one sign and all digits, or where it began if there is no digit |
| SmartRequest.TerminatedAt | src/sockets.cpp:656-656 | the NUL goes behind the text and nowhere else |
| SmartRequest.ById | src/sockets.cpp:672-679 | a number and a colon after host-transport-id: are accepted, a number without one is not |
| SmartRequest.DecodeStable | src/sockets.cpp:636-678 | what is decoded does not change when more bytes follow, unless the request is still incomplete |
| SmartRequest.BadIdForEver | src/sockets.cpp:636-678 | nor does it after a transport id that did not parse, when the byte behind the request has been overwritten |
| SmartRequest.BadIdExample | src/sockets.cpp:672-679 | the request 0013host-transport-id:x is one |
| SocketTable.Table.SmartDispatch | src/sockets.cpp:690-787 | for every outcome of a whole request the exact new graph, the packets sent, the return value, and whether the client stays listed |
| SocketTable.Table.SmartEnqueue | src/sockets.cpp:620-787 | what is decoded from the old buffer and the data decides: the exact new graph and packets, what the buffer is afterwards, a negative value exactly for a bad transport id or a refusal, and the client off the list exactly after a refusal |
| SocketTable.Table.FlushNearby | src/sockets.cpp:185-222 | false is returned exactly if the socket is off the list, except when the bytes its smart peer then has are a request whose transport id does not parse: then it is still listed, even at end of file; the exact graph before and after the close at end of file, the buffer of the smart peer, the packets; and joined pairs keep their subscriptions exactly unless this socket is left idle |
| Clients.Feed | src/sockets.cpp:620-787 | a request that comes in chunks, over any sequence of readable events up to the one that completes it: the graph, the return value and whether the client stays listed depend only on the concatenation |
| Clients.Ignore | src/sockets.cpp:672-678 | after a transport id that did not parse, every later event that brings bytes returns false, with end of file or without, changes nothing, and leaves the client listed and unserved |
| SocketTable.Table.EnqueueJoined | src/sockets.cpp:224-240 | bytes handed to a joined local socket are in its queue or at its fd, and the caller is told to wait exactly if some are left in the queue |
| SocketTable.Table.HandToLocal | src/sockets.cpp:190-212 | enqueue at a local peer: the exact new graph, with the sender paused exactly if its peer could not write all |
| SocketTable.Table.HandToSmart | src/sockets.cpp:190-212 | enqueue at a smart peer: the exact new graph and packets, negative exactly for a refusal or a bad transport id, the sender off the list exactly after a refusal, and what the buffer is afterwards |
| SocketTable.Table.HandOver | src/sockets.cpp:185-212 | the two by vtable; afterwards every joined socket but perhaps this one has its subscription, and this one lacks it exactly if it was not reading and its peer is not left waiting to write |
| JoinedFlow.HandoverFlows | src/sockets.cpp:196-212 | after a socket handed data to its local peer, every joined socket reads or has a peer subscribed to FDE_WRITE, if and only if it was reading before or its peer could not write all |
| JoinedFlow.HandoverLeavesIdle | src/fdevent.cpp:258-267 | a pair whose client is left idle by a full buffer: a hangup makes it read although it waits, and its peer takes everything at once and gives up FDE_WRITE without calling ready |
| Clients.IdlePair | src/fdevent.cpp:258-267 | such a pair reached from an empty table by events alone: a client, a request for the host, a blocked write, and a hangup with a full buffer |
| JoinedFlow.WritableFlows | src/sockets.cpp:306-325 | a writable event takes no joined socket its subscription: one that has written all calls ready of its peer |
| JoinedFlow.CloseFlows | src/sockets.cpp:268-304 | nor does a close |
| JoinedFlow.JoinFlows | src/sockets.cpp:728-739 | nor does joining a client to a service of the host |
| JoinedFlow.StreamFlows | src/adb.cpp:425-485 | nor does anything that happens to a socket of a stream |
| SocketTable.Table.ConnectToSmart | src/sockets.cpp:815-821 | a smart socket linked both ways, and the client reading |
| EventLoop.Loop.Create | src/fdevent.cpp:129-150 | a new fdevent under an fd that may have been used before |
| EventLoop.Loop.Destroy | src/fdevent.cpp:152-170 | out of the poll map and the pending list; the history of the fdevent ends |
| EventLoop.Loop.Update | src/fdevent.cpp:172-188 | the poll mask follows the subscription |
| EventLoop.Loop.Set | src/fdevent.cpp:190-208 | no change, nothing happens; a change restricts pending events bit by bit to the new mask and delists an fdevent left with none |
| EventLoop.Loop.Add | src/fdevent.cpp:210-213 | subscribed and old together; pending events asked for stay |
| EventLoop.Loop.Del | src/fdevent.cpp:215-218 | subscribed less the mask; pending events are restricted |
| EventLoop.Loop.Process | src/fdevent.cpp:235-279 | for every fd polled: its fdevent has a read exactly for POLLIN or trouble, a write exactly for POLLOUT, an error exactly for trouble, and is pending exactly if one of the six flags is set; pending ones are listed once each, in map order; a read nobody subscribed to comes with FDE_ERROR |
| EventLoop.Loop.Take | src/fdevent.cpp:281-288 | the head of the list is active, and is called with exactly what its history says is due, which is never nothing |
| EventLoop.Loop.Callback | src/fdevent.cpp:281-288 | arbitrary creates, sets and destroys keep the loop invariant and make nobody pending |
| EventLoop.Loop.Drain | src/fdevent.cpp:375-379 | the drain ends whatever the callbacks do; every pending fdevent was called, changed or destroyed |
| EventLoop.ChangeRestrictsDelivery | src/fdevent.cpp:200-207 | in every history, what is delivered after a subscription change and before the next poll lies within the new mask |
| EventLoop.OneCallPerPoll | src/fdevent.cpp:281-288 | in every history, each call of a callback has a poll of its own before it |
| EventLoop.Loop.SilentOnceDestroyed | src/fdevent.cpp:152-170 | in every valid loop a destroyed fdevent is in neither map nor list and its history ended with its destruction, even if its fd number is used again |
| RunQueue.NextKeeps | src/fdevent.cpp:290-386 | every step of posters and main thread keeps the run-queue invariant, with EAGAIN and posts before setup |
| RunQueue.FifoExactlyOnce | src/fdevent.cpp:290-305 | in every reachable state executed closures and queue together are the posted sequence |
| RunQueue.NoLostWakeup | src/fdevent.cpp:344-360 | a waiting closure has a byte on the notify fd, a poster about to write one, or a flush that is due; a poll with no poster in between never blocks |
| RunQueue.ReadNeverBlocks | src/fdevent.cpp:307-320 | the notify fd is never empty when it is read, which would be fatal |
| RunQueue.NotifyDrained | src/fdevent.cpp:307-320 | the notify fd is emptied if it holds at most 1024 bytes, and loses 1024 otherwise |
| RunQueue.ServesNext | src/fdevent.cpp:362-386 | from every reachable state the main thread alone reaches the next waiting closure within seven steps |
| IoVector.CutInside | src/types.h:206-212 | a front that ends inside a block shares it with the rest, and the two views are the front and the rest of the old view |
| IoVector.CutBetween | src/types.h:201-205 | so for a front that ends with a block |
| IoVector.PiecesShow | src/types.h:261-285 | the stretches iterate_blocks yields concatenate to the view |
| IoVector.TrimShows | src/types.h:228-240 | dropping the hidden start of the first block keeps the view |
| IoVector.IOVector.Append | src/types.h:219-224 | the view grows by the block |
| IoVector.IOVector.TakeFront | src/types.h:181-215 | for every chain and offsets the old view is split exactly at len; both chains hold only old blocks, which are not modified; no CHECK fires |
| IoVector.IOVector.TrimFront | src/types.h:228-240 | same view, no hidden start |
| IoVector.IOVector.Size | src/types.h:170-171 | the length of the view |
| IoVector.IOVector.Piece | src/types.h:261-285 | no offset exceeds its block, also with a single block |
| IoVector.IOVector.Iovecs | src/types.h:321-331 | the pieces concatenate to the view |
| IoVector.IOVector.Coalesce | src/types.h:289-305 | the copy is the view |
| IoVector.IOVector.Coalesced | src/types.h:307-318 | the single-block shortcut and the copy hand over the same bytes, the view |
| Framing.UnHeaderHeader | src/types.h:124-131 | a header decodes to the message it encodes |
| Framing.HeaderUnHeader | src/types.h:124-131 | every 24 bytes are the encoding of what they decode to |
| Framing.HeaderLayout | src/types.h:123-130 | byte k of command, arg0, arg1, data_length, data_check and magic is at k, 4 + k, 8 + k, 12 + k, 16 + k and 20 + k, lowest first |
| Framing.FramesPrefix | src/transport_fd.cpp:102-134 | if the frames of some packets begin the frames of others, the packets begin the others |
| Framing.Connection.DispatchWrites | src/transport_fd.cpp:179-202 | a short write leaves exactly the rest; written and buffered bytes stay the frames of the packets sent |
| Framing.Connection.Write | src/transport_fd.cpp:204-214 | any packet, well-formed or not: its header and payload join the stream, whatever the write does; all that was sent is then written if and only if this write took everything offered |
| Framing.Connection.Perform | src/transport_fd.cpp:62-134 | over any sequence of writes and reads poll is never asked whether the fd can take more, and what is buffered is exactly what the writes have left: all that was sent is written if and only if they left nothing |
| Framing.LastWriteDecides | src/transport_fd.cpp:179-214 | they left nothing if and only if the last write took all that was buffered and its own packet, however much is read afterwards |
| Framing.ShortWriteWaits | src/transport_fd.cpp:179-202 | a connection whose first write took one byte: 23 bytes still wait after any sequence of reads |
| Framing.Connection.TakeBlock | src/transport_fd.cpp:102-109 | the block just read joins the buffer |
| Framing.Connection.TakeHeader | src/transport_fd.cpp:102-121 | bytes read equal delivered frames, header and buffer, before and after a header is taken |
| Framing.Connection.TakePacket | src/transport_fd.cpp:123-134 | a packet is delivered exactly if its payload is complete, and the bytes still add up |
| Framing.Connection.ReadSome | src/transport_fd.cpp:102-134 | at most one packet for each read, and no byte lost |
| Framing.DeliversPrefix | src/transport_fd.cpp:102-134 | whatever the fragmentation, the packets delivered are a prefix of the packets sent |
| Transports.NextKeeps | src/transport.cpp:666-818 | every step of main thread, connection threads and reconnect handler keeps the lifecycle invariant |
| Transports.OneToken | src/transport.cpp:145-256 | in every reachable state each transport is in exactly one place; ref_count is 0 or 1, and 1 exactly while its connection lives or its error closure waits |
| Transports.DeletedForGood | src/transport.cpp:678-692 | deleted at most once, then in neither list, and no message, closure, attempt or connection leads to it |
| Transports.BoundedReconnects | src/transport.cpp:220-245 | a tracked transport gets at most kMaxAttempts + 1 Reconnect calls |
| Transports.RefCountHolds | src/transport.cpp:793-800 | CHECK_GT(ref_count, 0) never fires |
| Transports.ChecksHold | src/transport.cpp:694-722 | a connection is started and given callbacks only once |
| Reconnects.RetryDecides | src/transport.cpp:228-243 | in every state of the invariant: after Retry the transport is removed exactly if it has had MAX_ATTEMPTS + 1 calls, and otherwise waits for the next one |
| Reconnects.SuccessDecides | src/transport.cpp:245-248 | after Success it is to be registered, with a connection not started yet |
| Reconnects.AbortDecides | src/transport.cpp:250-254 | after Abort it is to be removed |
| Reconnects.ExactAttempts | src/transport.cpp:220-254 | over every run: a transport just tracked that nobody kicks, while the handler goes on and every answer is Retry, is removed if and only if no attempt waits or is in flight, and then after exactly MAX_ATTEMPTS + 1 calls |
| Reconnects.AttemptsRunOut | src/transport.cpp:220-254 | such a run to the end exists |
| Reconnects.ClosureDecides | src/transport.cpp:793-818 | when the last reference goes, the transport is tracked exactly if it is a network one that nobody kicked and the handler runs, forgotten if the handler does not run, and removed otherwise |
| Reconnects.HandleDecides | src/transport.cpp:678-722 | a registration starts the connection exactly if the device may be opened and lists a pending transport; a removal deletes and delists it; no other transport changes lists |
| Reconnects.HandleKicks | src/transport.cpp:723-726 | a send_connect that fails kicks the transport just started |
| Reconnects.FailDecides | src/transport.cpp:694-717 | only a running connection ends by an error, once, and posts one closure |
| Reconnects.KickDecides | src/transport.cpp:985-990 | the first kick ends a running connection, and the transport stays kicked |
| Reconnects.NewDecides | src/transport.cpp:1257-1262 | a new transport is pending with its registration on the way, and no other changes |
| Reconnects.EvictDecides | src/transport.cpp:198-210 | the scan removes a kicked transport that waits |
| Reconnects.PickDecides | src/transport.cpp:222-227 | and calls Reconnect once of any other it takes |
| Reconnects.StopDecides | src/transport.cpp:145-161 | Stop removes all that wait |
| Transports.KickIsLost | src/transport.cpp:985-990 | after the first kick its transport can come to have a live connection again if and only if a registration of it is on its way or an attempt to reconnect it is in flight |
| Transports.KickInFlightIsLost | src/transport.cpp:220-248 | a reachable state in which a kick during Reconnect does not stop the transport from having a live connection again |
| Transports.KickCanBeLost | src/transport.cpp:245-248 | a reachable state in which a kicked transport has a live connection, after a kick between a successful Reconnect and the registration, and in which another kick changes nothing |
| LruCache.Cache.Get | include/utils/LruCache.h:169-178 | the value, and the key becomes the youngest, all else in order |
| LruCache.Cache.Put | include/utils/LruCache.h:180-194 | a full cache drops its oldest entry and tells the listener, then the key is appended, or refused if it is present |
| LruCache.RefusedPut | include/utils/LruCache.h:180-194 | a put is refused exactly if the key is present and not the oldest of a full cache; it then leaves the cache as it was if and only if it was not full, and otherwise has lost exactly the oldest entry |
| LruCache.RefusedPutExample | include/utils/LruCache.h:180-194 | a full cache of two that refuses its younger key and has lost the older one |
| LruCache.ByPlace | include/utils/LruCache.h:169-178 | a lookup finds the value at the place of the key, a removal takes exactly that place away, and a get moves it to the young end with all else in order |
| LruOrder.LeastRecentlyUsedFirst | include/utils/LruCache.h:169-219 | over any sequence of gets, puts and removals the entries are in the order of their last use, so a full cache drops the least recently used one |
| LruCache.Cache.Listen | include/utils/LruCache.h:158-161 | a listener is set or taken away, and nothing else changes |
| LruCache.Cache.Remove | include/utils/LruCache.h:196-210 | exactly the entry of the key goes, and the listener is told of it and nothing else |
| LruCache.Cache.RemoveOldest | include/utils/LruCache.h:212-219 | succeeds exactly on a cache with entries, and the head goes |
| LruCache.Cache.PeekOldest | include/utils/LruCache.h:221-227 | the value at the head |
| LruCache.Cache.Clear | include/utils/LruCache.h:229-242 | nothing is left, and the listener is told of every entry, oldest first |
| LruCache.Cache.Attach | include/utils/LruCache.h:244-253 | appended at the young end, well linked both ways |
| LruCache.Cache.Detach | include/utils/LruCache.h:255-270 | cut out at any place, well linked both ways |
| LruCache.Cache.Size | include/utils/LruCache.h:163-166 | the set has as many entries as the list |
| Listeners.Table.Install | src/adb_listeners.cpp:180-242 | each status exactly in its case; on success a listener with that target and transport, a rebound one or one appended to the list; names stay unique, other listeners unchanged |
| Listeners.Table.Rebind | src/adb_listeners.cpp:198-204 | the disconnect record moves with the listener |
| Listeners.Table.Remove | src/adb_listeners.cpp:147-157 | the listener of that name goes, with its record, or it is not found |
| Listeners.Table.RemoveAll | src/adb_listeners.cpp:159-170 | exactly the special listeners stay |
| Listeners.SpecialAre | src/adb_listeners.cpp:159-170 | the special ones are those whose target starts with an asterisk |
| Listeners.Table.Erase | src/adb_listeners.cpp:61-68 | the destructor takes the record from its transport and from no other |
| Listeners.Table.Disconnect | src/adb_listeners.cpp:117-126 | the listener goes while the list of records being iterated is untouched |
| Listeners.Table.RunDisconnects | src/transport.cpp:1092-1097 | exactly the listeners bound to t go; the records are not modified while iterated |
| Listeners.Table.HandleOffline | src/adb.cpp:158-177 | a transport not yet offline loses exactly the listeners that refer to it |
| Utf8Console.CodepointLenIs | src/sysdeps_win32.cpp:2376-2378 | the shift trick gives the length that each lead byte announces |
| Utf8Console.ParseComplete | src/sysdeps_win32.cpp:2385-2421 | for every input: a prefix and at most three bytes held, split where the walk back says |
| Utf8Console.HeldIs | src/sysdeps_win32.cpp:2385-2421 | for every input, well-formed or not: bytes are held back exactly if the input ends in a lead byte with fewer trailing bytes than it announces, and then from that byte on |
| Utf8Console.PassesWhole | src/sysdeps_win32.cpp:2385-2421 | of the beginning of well-formed UTF-8 (section 4 of RFC 3629) the part passed on is whole sequences and the part held begins one |
| Utf8Console.NothingHeld | src/sysdeps_win32.cpp:2385-2421 | of well-formed UTF-8 nothing is held |
| Utf8Console.Console.Write | src/sysdeps_win32.cpp:2442-2460 | for every split of the input, output and held bytes are the input; every chunk is whole sequences while the input begins well-formed UTF-8 |
| HandleTable.Table.Alloc | src/sysdeps_win32.cpp:201-224 | the lowest free slot, or none exactly if the table is full |
| HandleTable.Table.Close | src/sysdeps_win32.cpp:227-247 | the slot is free, also on a second close; no slot below the hint is free |
| HandleTable.Table.FromInt | src/sysdeps_win32.cpp:165-189 | a used slot exactly for the fd of one |
| HandleTable.Table.Inverse | src/sysdeps_win32.cpp:192-199 | the two conversions are inverse exactly on used slots |
| ShellProtocol.ReadExactly | src/adb_io.cpp:72-97 | for every pattern of short reads: true exactly if enough bytes come, then they are in place and nothing else is touched |
| ShellProtocol.WriteExactly | src/adb_io.cpp:99-126 | for every pattern of short writes and retries a prefix is written, all of it exactly on success; only an error makes it fail |
| ShellProtocol.Protocol.Read | src/shell_service_protocol.cpp:32-54 | one step of the value model, for every pattern of short reads, with the data in the buffer |
| ShellProtocol.Protocol.Write | src/shell_service_protocol.cpp:56-62 | the encoded packet or, on failure, a beginning of it |
| ShellProtocol.EncodeLayout | src/shell_service_protocol.cpp:56-62 | the id at byte 0, the length at bytes 1 to 4 lowest first, then the payload |
| ShellProtocol.ChunksAre | src/shell_service_protocol.cpp:46-51 | the pieces join to the payload, none exceeds the capacity, and there are as few as possible but at least one |
| ShellProtocol.ReadsWhatWasWritten | src/shell_service_protocol.cpp:32-62 | successive Reads of a written packet return exactly its pieces under its id, and the next Read is at what follows |
| NetAddress.Accepted | lib/base/parsenetaddress.cpp:27-79 | an accepted address has a host, a port in range, and the canonical form of both |
| AddressForms.BareName | lib/base/parsenetaddress.cpp:49-76 | a host name alone gets the port of the caller |
| AddressForms.BareIpv6 | lib/base/parsenetaddress.cpp:49-76 | so does an IPv6 address alone |
| AddressForms.NameWithDigits | lib/base/parsenetaddress.cpp:52-76 | a host name and digits give exactly that port, or nothing if it is not between 1 and 65535 |
| AddressForms.BracketsWithDigits | lib/base/parsenetaddress.cpp:39-76 | so do a host in brackets and digits |
| AddressForms.ScanReads | lib/base/parsenetaddress.cpp:65-71 | the text of a port is read as blanks, one sign and all digits up to the first other character |
| AddressForms.RejectedInBrackets | lib/base/parsenetaddress.cpp:39-76 | an address that starts with a bracket is rejected exactly if it has no end of a host, an empty host or a bad port |
| AddressForms.RejectedName | lib/base/parsenetaddress.cpp:52-76 | one with at most one colon exactly if its host is empty or its port bad |
| AddressForms.RejectedColons | lib/base/parsenetaddress.cpp:49-63 | one with more exactly if it has a dot or more than seven colons |
| NetAddress.CanonicalIsStable | lib/base/parsenetaddress.cpp:27-79 | reparsing the canonical form gives the same host, port and form if and only if the address is not IPv6 or its host has no "]:" inside |
| NetAddress.SkipHostSerial | src/sockets.cpp:570-614 | the scan over the digits finds the colon the specification names |
| AddressForms.SkipPrefixed | src/sockets.cpp:571-579 | after usb:, product:, model: or device: the serial ends at the next colon, and is not found without one |
| AddressForms.SkipSerial | src/sockets.cpp:595-611 | any other serial ends at its colon, or behind the port that follows it: digits and another colon |
| AddressForms.SkipProtocol | src/sockets.cpp:582-611 | so after tcp: or udp: |
| AddressForms.SkipBracketed | src/sockets.cpp:582-611 | so a host in brackets, with or without a protocol, whatever colons it has |
| AddressForms.SkipNothing | src/sockets.cpp:595-599 | without a colon nothing is found |
| NetAddress.SkipFindsCanonical | src/sockets.cpp:570-614 | the end of a canonical serial is found if and only if no colon follows a closing bracket inside an IPv6 host and, for a host called tcp or udp, the command does not start with a port |
| NetAddress.BracketCounterexample | lib/base/parsenetaddress.cpp:45-47 | an accepted address for which both fail |
| NetAddress.TcpCounterexample | src/sockets.cpp:582-585 | a host called tcp for which the end is not found |

## Left out

- SocketTable.Table.CreateLocal: does not model the last id, because the process aborts when the counter wraps.
- SocketTable.Table.OnOpen: does not model the destination string, because which services exist is a parameter.
- SocketTable.Table.SmartEnqueue: decodes length and transport id as the host build does; what becomes of a whole request is a parameter, because service names and the choice of a transport are not modelled. The NUL written behind a request is modelled only if it falls inside the buffer.
- SocketTable.Table.Receive: speaks of packets for a socket of a stream or for none; a packet that names a joined or smart-held id keeps the graph invariant, but no endpoint of the model sends one.
- Simulation.System.OnRequest: all requests that open a stream are for the one transport of the network.
- Framing.DeliversPrefix: the packets sent have headers that state their payload length, as all senders set it; without that no reader could tell them apart.
- SocketTable.Table.OnWrte: appends nothing for an empty payload, on which the source aborts; no endpoint of the model sends one, as StreamTheorems.ChecksHold states.
- Network.StepKeeps: one transport that stays online; AUTH, CNXN and id clashes between transports are not modelled.
- ShellProtocol.WriteExactly: gives up when the list of outcomes ends, because a write that is retried for ever never returns.
- NetAddress.Accepted: numbers are unbounded, so a port that overflows an int is simply out of range; the texts of errors are not modelled.
- EventLoop.Loop.Process: a failing poll and the fd's blocking mode are not modelled.
- Listeners.Table.Install: takes what the system made of the port as a parameter, and relies on it not to hand out a port in use.
- Listeners.Table.RunDisconnects: every record of a transport is taken for a listener's; the one that the daemon's authentication adds (src/daemon/auth.cpp:132) is not modelled.
- Transports.NextKeeps: entering the pending list and sending the registration are one step, and waiting and timing of the handler are not modelled, so nothing is said about when Stop returns.
- RunQueue.ServesNext: says what the main thread reaches when nobody posts meanwhile, not when.
- Notification bytes a ready_notify or close_notify socket writes to its fd; local_socket_ready_notify and local_socket_close_notify differ from the plain ones only in them.
- The wake-up fd, Start and Stop of NonblockingFdConnection, and delivery of all complete packets: a packet may wait for the next read.
- Device trackers, features, banners, authentication, USB, mDNS, the emulator port map, and request dispatch of the host: shallow, or not part of this model.
- Console conversion to UTF-16 and all other Windows wrappers: calls into the system.
