# serverlib: the message pipeline

A Dafny model of the path a message takes through serverlib: from the bytes `recv` returns, through
length-prefixed reassembly, the worker threads and the deferred send path, to the bytes `write` accepts; and of
tcpproxy and udpproxy, which put a client's identity inside frames. Sockets, the kernel and libev are the
environment: every result they may give (any chunk of 1 to 4096 bytes, any partial write, EAGAIN, end of stream,
errors, any unused descriptor) is one choice among the steps of a state machine.

Integers in frames are 32-bit two's complement, least significant byte first, the same on both ends. A locked
region is one atomic step. An object's callbacks run on its loop thread; `Send` may come from any thread at any
moment, a handler included.

| file | what it holds |
|---|---|
| `Wire`, `Remainders`, `SocketKey`, `KeyedLog`, `Wrappers` | byte strings and integers, remainders, the packed client identity, logs per client |
| `Framing` | the reassembly loop as coded, and the ideal parse of a stream it is measured against |
| `Chunking` | the calls of a whole connection as coded: accounting, chunk independence, buffer bounds |
| `RoundRobin`, `WorkerPool`, `PacketThreads` | choice of worker, the workers as interleaved steps, the objects |
| `SendPath` | `m_Functions` and its batches, `COutputBuffer` and the write queue |
| `ServerSteps`, `ClientSteps` | CCommonServer and CTcpClient as state machines, with their invariants |
| `Connections`, `SocketTable`, `CommonServer`, `TcpClient` | the same as mutable objects, each callback proved to be its machine's step |
| `ProxyFrames`, `ProxyHandlers`, `UdpProxy` | encapsulation, its round trips, the handlers |
| `SteadyServer`, `EchoSystem`, `EchoProofs`, `EchoInvariant`, `EchoCompletion` | tcpproxy in front of the echo server, end to end |
| `DeliveryMeasure`, `EchoBounds`, `EchoTermination`, `EchoFairness` | how much work and how many frames each stage can hold, and that the proxied system comes to rest under fair scheduling once clients send nothing more |

Things the code does that its purpose does not ask for, each with the exact condition:

- `(int)strData.size()` can wrap. `Framing.DrainStalls`: a complete frame is left in the buffer exactly while the
  buffer's size modulo 2^32 is less than the frame's or more than INT_MAX. `Framing.SafeLength`: one `recv` can never
  bring that about exactly for lengths up to 2147479548; each of the 4095 larger lengths that fit an int can. So
  the bounds on the buffer, the results on clean streams and those below hold for streams of lengths up to a limit
  exactly for limits up to 2147479548 (`Chunking.BufferBound`, `Chunking.CleanStreamsAreChunkIndependent`,
  `Chunking.LeadingFramesAreChunkIndependent`), and the proxy restores all payloads up to a limit exactly for limits
  up to 2147479538 (`ProxyFrames.ProxyRoundTrip`). A stall never corrupts: `Chunking.FramesOnlyDelayed` and
  `Chunking.FeedAllAccounts` hold without any limit.
- A non-positive length throws away whatever happens to be buffered behind it, so what survives depends on how the
  stream was chunked. `Chunking.ChunkIndependence`: among streams of lengths up to a limit the chunking is invisible
  exactly for those that are not valid frames followed by a non-positive length and at least two bytes more; and this
  is so exactly for limits up to 2147479548, since above it a clean stream can stall or not.
- A send that is still queued when its client disconnects goes to the next client with the same address, port and
  descriptor. `ServerSteps.SendStreamSinceConnected`: a client is sent exactly what was submitted since it connected
  if and only if nothing stale for its key was queued at that moment.
- With several workers the target may echo a client's frames in another order. `EchoCompletion.ProxiedEcho`: it is
  always the same frames, each as often; with at most one worker it is also the same order.

`PacketThreads`, `CommonServer` and `TcpClient` state each method against the step functions of the machines, so the
theorems about every run of the machines are theorems about the objects. A callback with both READ and WRITE is the
read step followed by the write step. What other threads do while a method runs is a parameter of it: the packets or
sends that arrive at each moment at which the lock is free, any of them.

The proxy's server is a CTcpServer whose data handle feeds a CServerContentManager. `EchoSystem` models it by the
machine of a CCommonServer without workers, whose steps it shares: CServerContentManager::Add is the loop of
`__AddContent`, with each frame handled before the next is cut (`ProxyHandlers.ContentManager.Add` and
`CommonServer.Server.AddContent` are proved against the same `Drain`), its buffers are per client and dropped on a
disconnect. The difference is where the callbacks go: CTcpServer tells its handle of every `recv`, and the frames are
the content manager's; the machine's Data events are the frames.

## Model

| member | source | states |
|---|---|---|
| SocketKey.LessIsStrictTotalOrder | isocket.h:12-34 | `operator<` is irreflexive, asymmetric and transitive, and two keys are incomparable exactly when they are equal |
| SocketKey.LessIsNumericOrder | isocket.h:12-30 | `operator<` is the numeric order of address, port and descriptor read as one number, address first |
| SocketKey.PackLayout | isocket.h:4-36 | the packed record holds address, port and descriptor in this order, each least significant byte first, with nothing in between |
| SocketKey.UnpackPack | isocket.h:4-36 | reading the packed 10-byte image of an identity gives the identity back, whatever follows it |
| SocketKey.PackUnpack | isocket.h:4-36 | every 10-byte string is the image of the identity read from it |
| Wire.I32RoundTrip | commonserver.cpp:176-176 | a length written in host order is read back, for all 32-bit values |
| Wire.IntegersAreLittleEndian | commonserver.cpp:176-176 | integers are read least significant byte first, signed ones in 32-bit two's complement |
| Framing.DrainAccounts | commonserver.cpp:169-193 | one call, on a buffer of any size, accounts for every byte in order: valid frames, at most a discarded tail with a non-positive length, and what the loop keeps |
| Framing.DrainIsUnique | commonserver.cpp:174-192 | one call on valid frames and a residue cuts exactly those frames and keeps that residue if and only if the truncated size reaches each frame when its turn comes and the residue is one the loop leaves alone |
| Chunking.FeedAllAccounts | commonserver.cpp:169-193 | over a whole connection, in any chunks, bad lengths and stalled buffers included, received bytes are delivered frames, discarded stretches and the residue, nothing lost, duplicated or reordered, and only an overflowing length is a fault |
| Chunking.CleanStreamsAreChunkIndependent | commonserver.cpp:169-193 | for every limit: every stream of lengths up to it that meets no bad length gives the frames and residue of the whole stream in any chunks recv can return, if and only if the limit is at most INT_MAX - 4099 |
| Chunking.FramesOnlyDelayed | commonserver.cpp:169-193 | for every stream, chunking and length: the frames delivered before anything is discarded are the first of the whole stream, so a stall can only delay them |
| Chunking.LeadingFramesAreChunkIndependent | commonserver.cpp:169-193 | for every limit: with lengths up to it, the frames delivered before a bad length, and whether one is met, are the same for every chunking, if and only if the limit is at most INT_MAX - 4099 |
| Chunking.ChunkIndependence | commonserver.cpp:169-193 | for every limit: for all streams of lengths up to it, all the ways in which recv can cut the stream give the same result exactly if it is not valid frames followed by a non-positive length and at least two more bytes; if and only if the limit is at most INT_MAX - 4099 |
| Framing.DrainIsGreedy | commonserver.cpp:174-192 | while the buffer size fits an int the coded loop is the ideal parse |
| Framing.DrainStalls | commonserver.cpp:182-182 | a buffer that starts with a positive length is left alone by one call exactly while its size modulo 2^32 is below the frame size or above INT_MAX, however complete the frame |
| Framing.FirstLength | commonserver.cpp:176-182 | one call faults at once exactly if it reads a length whose sum with 4 overflows an int, and discards everything exactly if it reads a length that is not positive |
| Framing.SafeLength | commonserver.cpp:169-193 | for every bound on lengths: no pending buffer and chunk make the coded loop deviate, if and only if the bound is at most INT_MAX - 4099 |
| Chunking.BufferBound | commonserver.cpp:169-193 | for every limit L: with pending lengths up to L, in any chunks, the buffer stays below L + 4 bytes between calls and below L + 4 + 4096 during a call, if and only if L is at most INT_MAX - 4099 |
| Chunking.ReceiveOfPrefix | commonserver.cpp:169-193 | receiving any part of a stream of frames of safe length in any chunks never meets an overflowing length |
| Chunking.FeedAllOfPrefix | commonserver.cpp:169-193 | any part of a stream of frames of safe length, in any chunks, is parsed into the first of those frames, and the whole into all of them with nothing left over |
| RoundRobin.Balance | commonserver.cpp:209-209 | over any window of dispatches that crosses the 32-bit wrap k times, two workers' shares differ by at most k + 1 |
| RoundRobin.PerfectBalance | commonserver.cpp:209-209 | the shares differ by at most 1 on every window if and only if the number of workers divides 2^32 |
| RoundRobin.WorkerIsCounterModN | commonserver.cpp:209-209 | the worker is the counter modulo the number of workers for the first 2^32 dispatches, then the same again |
| WorkerPool.StepKeepsInv | commonserver.cpp:37-73 | a consumer step, waking for any reason or stopping included, never pops an empty queue and keeps handled, in hand and queued equal to what was given |
| WorkerPool.SnapshotIsInt | commonserver.cpp:37-73 | the size a consumer takes is that of its queue as a 32-bit int, which can wrap |
| WorkerPool.StopEnds | commonserver.cpp:20-73 | a stopped consumer exits after finitely many steps of its own from wherever it is, with what it had in hand and what its snapshot promised handled |
| WorkerPool.StoppedWorkerExits | commonserver.cpp:20-73 | Stop reaches the worker it is for and no other, leaves its packets alone, and that worker then exits |
| WorkerPool.PoolSafety | commonserver.cpp:29-73 | in every interleaving of dispatches, consumer steps and stops each worker holds its share of the dispatches in order and no queue is popped when empty |
| WorkerPool.PoolConservation | commonserver.cpp:200-211 | every dispatched packet is in exactly one worker exactly once |
| WorkerPool.PoolBalance | commonserver.cpp:200-211 | in every reachable state two workers' loads differ by at most one more than the number of counter wraps |
| PacketThreads.PktHandleThread.AddPkt | commonserver.cpp:29-35 | queueing is the producer step of the worker machine |
| PacketThreads.PktHandleThread.HandleTurn | commonserver.cpp:37-73 | a turn of the outer loop, whatever packets are queued and whenever Stop is called between its steps, is a run of the worker machine; nothing is lost or reordered, the packets found waiting are all handed on, and a turn that hands on nothing ends only by Stop (or a size that wraps) |
| PacketThreads.Dispatcher.HandlePkt | commonserver.cpp:200-211 | calls the handler; or adds the packet to the queue of the worker that the counter modulo 2^32 modulo their number names and to no other, counts it, and is the dispatch step of the pool machine |
| PacketThreads.Dispatcher.constructor | commonserver.cpp:121-134 | thread numbers outside 1 to 64 leave the server without workers |
| SendPath.BatchIsFixed | tcpserver.cpp:326-342 | sends made while a batch runs neither prolong it nor join it, and keep their order for the next |
| SendPath.WriteStream | tcpserver.cpp:119-156 | a WRITE event of any size keeps written followed by unwritten bytes, and queued data keeps WRITE interest set |
| SendPath.WriteEffect | tcpserver.cpp:119-156 | a WRITE event writes exactly the bytes write() accepted, drops the front buffer exactly if they were all of it, and leaves WRITE interest set exactly if something is still queued |
| SendPath.DrainTerminates | tcpserver.cpp:119-156 | only finitely many write events that get somewhere fit in, none is left exactly when the queue is empty, and then everything has been written |
| ServerSteps.NextKeepsInv | tcpserver.cpp:57-342 | every atomic step keeps the server invariant: send streams, reassembly, lifecycle, distinct descriptors, no stranded call |
| ServerSteps.RunKeepsInv | tcpserver.cpp:57-342 | so it holds in every state of every run |
| ServerSteps.RunRecords | tcpserver.cpp:232-324 | over every run the calls accounted for are the sends made, in order, the chunks of a live client are those received since it was last accepted, and the calls that can be stale for it are those made before |
| ServerSteps.EnvironmentIsFree | tcpserver.cpp:81-157 | no choice of the environment is left out: any unused descriptor, any chunk of 1 to 4096 bytes without an overflowing length, any partial write, a loss or a send at any moment |
| ServerSteps.WritesWantedWhenQueued | tcpserver.cpp:57-156 | in every reachable state WRITE events of a client are wanted exactly while something is queued for it, and at most 1000001 buffers are |
| ServerSteps.LoseEffect | tcpserver.cpp:256-299 | losing a client takes it and nobody else out of the table, drops its bytes, and tells the handler once |
| ServerSteps.SendStream | tcpserver.cpp:232-342 | written, queued on the connection, in the batch and in m_Functions, in this order, are the payloads submitted for a live client from the first call not yet run when it was accepted |
| ServerSteps.SendStreamSinceConnected | tcpserver.cpp:232-342 | that is exactly what was submitted since it connected if and only if nothing stale for its key was queued then |
| ServerSteps.SendStreamOfFreshKey | tcpserver.cpp:232-342 | for a key first used after it was announced it is everything ever submitted for it |
| ServerSteps.StaleSendReachesNewClient | tcpserver.cpp:289-324 | a run in which bytes sent to a departed client are written to its successor with the same key |
| ServerSteps.LegalHistory | tcpserver.cpp:256-324 | in a legal history each client's callbacks are Connected, then Data, then at most one Disconnected, and so on again |
| ServerSteps.CallbackHistory | tcpserver.cpp:256-324 | over every run the history is legal, its Data callbacks are exactly the frames cut, in order, Disconnected coincides with leaving the table, and only live clients have reassembly buffers |
| ServerSteps.OverflowReportsOnce | tcpserver.cpp:57-63 | over every batch, for every client and whatever is sent meanwhile, exactly one disconnect is reported if the batch makes the client leave the table, and none otherwise |
| ServerSteps.BatchOverflows | tcpserver.cpp:57-63 | a batch makes a client leave exactly if it holds a send for it and what is queued, with all sends for it but the last, exceeds 1000000 buffers |
| ServerSteps.NewClientStartsEmpty | commonserver.cpp:136-198 | a client that reuses a key starts with an empty reassembly buffer |
| ServerSteps.Isolation | commonserver.cpp:143-198 | a client's frames and residue are those of its own chunks alone, bad lengths included, under any interleaving with others |
| ServerSteps.IsolationOfCleanStreams | commonserver.cpp:143-198 | ... and of its own bytes alone, under any chunking, if their lengths are neither bad nor above INT_MAX - 4099 |
| ServerSteps.NoStrandedData | tcpserver.cpp:57-68 | while anything is undelivered some event that carries it forward is enabled |
| ServerSteps.RunBatchFollows | tcpserver.cpp:326-342 | one call of the async callback, whatever is sent meanwhile, is a run of atomic steps: one of its own per call queued at the swap and three more |
| ServerSteps.BatchEffect | tcpserver.cpp:326-342 | one call of the async callback runs everything queued by the time of the swap, in order, and keeps what is sent afterwards, in order, for the next |
| Connections.TcpConnection.Send | tcpserver.cpp:57-68 | refuses exactly above 1000000 queued buffers, otherwise appends the buffer and asks for WRITE |
| Connections.TcpConnection.OnWritable | tcpserver.cpp:119-156 | empty queue, EAGAIN, error and partial write as the machine has them, advancing the front buffer in place; an event that finds or leaves the queue empty gives WRITE interest up, any other keeps it |
| SocketTable.LookupIsMerge | tcpserver.h:107-133 | looking a client up in its own shard is looking it up in the union of all shards |
| SocketTable.SocketInfoManager.Add | tcpserver.h:114-117 | adds to the one map the shards stand for, by adding to the shard of the descriptor modulo 256 and no other |
| SocketTable.SocketInfoManager.Get | tcpserver.h:118-121 | finds what the one map holds, which is what the shard of the descriptor modulo 256 holds |
| SocketTable.SocketInfoManager.Remove | tcpserver.h:122-125 | removes from the one map, by removing from the shard of the descriptor modulo 256 and no other |
| SocketTable.SocketInfoManager.InOwnChannel | tcpserver.h:127-130 | a client is only ever in the shard of its descriptor modulo 256 |
| CommonServer.Server.AddContent | commonserver.cpp:169-193 | the in-place loop hands on the frames and leaves the residue of `Drain`, for every buffer and chunk |
| CommonServer.Server.Receive | commonserver.cpp:143-146 | the READ half of the callback is the machine's receive step |
| CommonServer.Server.Send | tcpserver.cpp:232-243 | a send is the machine's send step with the caller's bytes as they are now |
| CommonServer.Server.Accept | tcpserver.cpp:301-324 | accepting is the machine's accept step |
| CommonServer.Server.Lose | commonserver.cpp:136-167 | each way of losing a client is the machine's disconnect |
| CommonServer.Server.OnWritable | tcpserver.cpp:119-156 | the WRITE half of the callback is the machine's write step or disconnect; unless the socket would block, the client is gone or has WRITE interest exactly if something is queued |
| CommonServer.Server.AsyncCallback | tcpserver.cpp:326-342 | the loop over the swapped batch, with lookups, refusals and enqueues, is the machine's batch, whatever other threads or handlers send before the swap and after each call |
| ClientSteps.StreamAcrossReconnects | tcpclient.cpp:74-233 | over any run with any reconnects, what was written on all sockets in turn, then what is queued, are the accepted buffers in order, refused ones contributing nothing, and at most 1000001 are queued |
| ClientSteps.SendStream | tcpclient.cpp:61-145 | while nothing is refused, everything submitted is written, queued, in the batch or in m_Functions, in order |
| ClientSteps.NoStrandedData | tcpclient.cpp:61-225 | undelivered data leaves an event enabled, also right after a reconnect |
| ClientSteps.ReconnectResumes | tcpclient.cpp:74-127 | a new socket first carries the rest of the partly written buffer |
| ClientSteps.RunBatchFollows | tcpclient.cpp:129-145 | one call of the async callback, whatever is sent meanwhile, is a run of atomic steps: one of its own per call queued at the swap and three more |
| ClientSteps.BatchEffect | tcpclient.cpp:113-145 | over every batch, whatever is sent meanwhile: all that is queued by the time of the swap is run in order, a call is accepted exactly if it finds at most 1000000 buffers queued, counting those at the start and the calls before it, and what is sent afterwards waits in order |
| ClientSteps.FewIdleWrites | tcpclient.cpp:186-225 | over any run, between two calls of `__Send` or reconnects at most one WRITE event finds the queue empty |
| ClientSteps.LogIsSends | tcpclient.cpp:61-72 | over any run the calls accounted for are the sends made, in order |
| ClientSteps.EnvironmentIsFree | tcpclient.cpp:147-233 | no choice of the environment is left out: any partial write, an empty WRITE event while wanted, a lost connection, a send at any moment |
| ClientSteps.ReconnectEffect | tcpclient.cpp:74-111 | a reconnect opens one more socket, with WRITE interest set, and leaves everything queued as it is |
| TcpClient.Client.OnWritable | tcpclient.cpp:188-225 | the WRITE half of the callback is the machine's write or reconnect; an event that finds or leaves the queue empty gives WRITE interest up, a reconnect asks for it on the next socket |
| TcpClient.Client.AsyncCallback | tcpclient.cpp:129-145 | the loop over the swapped batch is the machine's batch, whatever is sent before the swap and after each call; a call queues its buffer exactly while at most 1000000 are queued |
| ProxyFrames.UnwrapWrap | test/tcpproxy.cpp:70-101 | a wrapped payload of 1 to INT_MAX - 14 bytes is a valid frame, is never dropped by the length guard, and unwraps to the client and its original frame |
| ProxyFrames.WrapLayout | test/tcpproxy.cpp:70-79 | the bytes sent upstream: the length of what follows, the 10 bytes of the identity, the payload |
| ProxyFrames.UnwrapLayout | test/tcpproxy.cpp:87-101 | nothing is sent for a payload of at most 10 bytes; otherwise the client named by its first 10 bytes is sent the length of the rest and the rest |
| ProxyFrames.WrapUnwrap | test/tcpproxy.cpp:70-101 | wrapping what was unwrapped restores the frame |
| ProxyFrames.ProxyRoundTrip | test/tcpproxy.cpp:39-101 | for every limit on payloads: every log of frames up to it, wrapped and received by the coded loop in any chunks recv can return, unwraps to the same clients and frames with nothing left over, if and only if the limit is at most INT_MAX - 4109 |
| ProxyFrames.UnwrapSubset | test/tcpproxy.cpp:87-101 | wrapped frames that come back in another order, or not all of them, unwrap to the clients and frames they were made of, each as often |
| ProxyFrames.OfRouted | test/tcpproxy.cpp:197-205 | all of a client's frames take one upstream connection, in order |
| ProxyFrames.DescriptorsSpread | test/tcpproxy.cpp:200-203 | of any `concurrency` clients with consecutive descriptors each upstream gets exactly one, the one the descriptor modulo `concurrency` names |
| ProxyHandlers.ContentManager.Add | test/tcpproxy.cpp:39-65 | the loop sends the reactions to exactly the frames of `Drain` and keeps the residue |
| ProxyHandlers.ContentManager.HandlePkt | test/tcpproxy.cpp:70-101 | builds by appends the wrapped packet, or the unwrapped one for the client it names, byte by byte; sends nothing for a returned payload of at most 10 bytes |
| UdpProxy.OnClientDatagram | test/udpproxy.cpp:62-77 | nothing is sent exactly for datagrams of at most 4 bytes; otherwise the datagram sent is its own length field (right for its size), the address, the port and the payload, in this order |
| UdpProxy.OnTargetDatagram | test/udpproxy.cpp:38-54 | nothing is sent exactly for datagrams of at most 10 bytes; otherwise the payload goes, behind its own length, to the address and port the datagram holds |
| UdpProxy.EchoReturns | test/udpproxy.cpp:38-77 | the sender's address always comes back, and the payload exactly if the wrapped datagram fits the 1500-byte buffer |
| UdpProxy.EchoIsIdentity | test/udpproxy.cpp:38-77 | the datagram itself comes back exactly if it fits and its length field was right |
| UdpProxy.SendersSpread | test/udpproxy.cpp:118-126 | of any `concurrency` senders at one address with consecutive ports each upstream gets exactly one, the one the sum of address and port modulo `concurrency` names |
| EchoInvariant.NextKeepsInv | test/tcpproxy.cpp:39-205 | every step of the proxied echo system keeps its invariant across all four hops |
| EchoProofs.EchoSafety | test/tcpcommonechoserver.cpp:22-25 | in every reachable state, with any number of workers, what was written back to a client is whole frames and at most part of one more, all cut by the proxy from its bytes, none more often; with at most one worker it is a prefix of them in order |
| EchoProofs.EchoOfSentStream | test/tcpcommonechoserver.cpp:22-25 | for a client that sends positive lengths the same holds of the complete frames it has sent |
| EchoProofs.ForwardEffect | test/tcpproxy.cpp:195-203 | forwarding a frame sends its wrapped form on the upstream that the descriptor modulo their number names, and changes nothing else |
| EchoProofs.SentByDescriptor | test/tcpproxy.cpp:195-203 | in every reachable state whatever has been sent on upstream i is a wrapped frame of a client whose descriptor modulo their number is i |
| EchoProofs.ServersAreFree | tcpserver.cpp:81-324 | the proxied system restricts the proxy's server and the target in nothing but letting each frame that was cut be handled before the next event: new clients, chunks of echoable frames, new upstream connections |
| EchoProofs.ThreadsAreFree | tcpclient.cpp:113-233 | nor the loop threads and workers: any step is allowed but those left out (lost connections, full queues) |
| EchoProofs.LinksAreFree | commonserver.cpp:143-146 | any chunk of 1 to 4096 bytes in flight towards the target may arrive once its loop is free |
| EchoProofs.LinksAreFreeBack | tcpclient.cpp:147-186 | and any in flight back |
| EchoCompletion.EchoComplete | test/tcpcommonechoserver.cpp:22-25 | once nothing is under way on one client's path, whatever the rest of the system does, it has been written back exactly the frames the proxy cut from what it had received from it, each as often, in order with at most one worker |
| EchoCompletion.NoDeadlock | test/tcpproxy.cpp:39-205 | as long as anything is under way some step carries it onwards, if no queue is full and every upstream that is used has been accepted |
| EchoCompletion.ProxiedEcho | test/tcpcommonechoserver.cpp:22-25 | both, over every run from the start, for any number of clients, upstream connections, workers and interleavings |
| EchoBounds.TargetHoldsForwarded | test/tcpproxy.cpp:39-101 | the target never cuts more frames than the proxy has forwarded, summed over all upstream connections |
| EchoBounds.WorkerBound | commonserver.cpp:29-35 | no worker queues more packets than the frames cut by the proxy and not yet echoed |
| EchoBounds.NothingFull | tcpserver.cpp:57-68 | no write queue on any hop is full while at most 1000000 frames are under way on each upstream and owed to each client, however many have passed before |
| EchoTermination.ReachableStates | test/tcpproxy.cpp:39-205 | after every run from the start the invariants hold, and every connection at the target is that of one upstream client |
| EchoTermination.ReadyMoves | tcpserver.cpp:119-156 | with at most 1000000 frames under way on any path and every used upstream accepted, some delivering step is enabled whenever anything is under way |
| EchoTermination.StepLowersRank | tcpserver.cpp:119-156 | every delivering step, on any hop and for any chunk, lowers a lexicographic rank of the work left |
| EchoTermination.IdleKeepsRank | tcpserver.cpp:119-156 | every other step but new bytes from clients (empty or zero-byte WRITE events, wake-ups, new connections) leaves that rank as it is |
| EchoTermination.EveryBehaviourFinishes | test/tcpcommonechoserver.cpp:22-25 | every behaviour without new bytes from clients, idle steps and all, in which delivering steps keep occurring while there is something to deliver, comes to rest, and then each client has been written back exactly the frames the proxy had cut from what it had received from it |
| EchoFairness.FinishingRun | test/tcpproxy.cpp:39-205 | with every used upstream accepted and at most 1000000 frames still to come back on each upstream and owed to each client, some run of the system leads to rest |
| EchoFairness.IdleKeepsRipe | test/tcpproxy.cpp:39-205 | a step that delivers nothing never disables one that would |
| EchoFairness.FairBehaviourFinishes | test/tcpcommonechoserver.cpp:22-25 | from such a state every behaviour without new bytes from clients comes to rest if its threads are scheduled weakly fairly (a thread that always has something to deliver delivers some of it), and then each client has been written back exactly the frames the proxy had cut from what it had received from it |

## Left out

- Start, Stop, destructors, signals, `sleep`, socket options, listening and name resolution: set-up and tear-down.
- CloseClient: it closes the descriptor but leaves the watcher and the table entry, so descriptors can then be reused while live.
- The idle clock: a timeout is one of the ways a connection can be lost at any moment.
- A failed `socket()` when a client reconnects.
- Order across workers, and callbacks after a disconnect when there are workers: the code keeps neither. With workers a Data event is the dispatch; the callback is the worker's step.
- Errors, disconnects and full queues in the end-to-end system; the servers and clients it is made of have them.
- EchoFairness.FairBehaviourFinishes: does not cover bytes that keep arriving from clients, which can keep the system busy for ever, nor more than INT_MAX frames awaiting their echo, for which a worker's `int nSize` wraps.
- Negative descriptors, for which the shard and upstream index would be out of bounds.
- Program behaviour after `nPktLen + 4` overflows: the parse records the fault and says nothing more, and the machines take no chunk that leads to one.
- COutputBuffer's `m_szData` is an immutable copy of the caller's bytes; allocating and freeing it is not modelled.
- CommonServer.Server keeps the connection table as the single map that SocketTable proves the shards to be.
- The per-client order in which a handler's own sends interleave with frames of one `recv`: the machines let every frame be cut before the first send, which other threads cannot tell apart.
- udpserver.cpp, udpclient.cpp, iserver.cpp, iclient.cpp, and the benchmark clients: thin wrappers and drivers.
