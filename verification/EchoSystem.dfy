/** tcpproxy between its clients and an echo server built on CCommonServer: the proxy's server, its pool of upstream
    clients, and the target with any number of workers. Every hop chunks its bytes as it likes, and the loop threads
    of the proxy, of each upstream client and of the target, and the workers, are interleaved freely. Clients connect
    at any time; nobody disconnects or overflows a queue.

    The proxy's server is a CTcpServer whose data handle feeds a CServerContentManager. It is the same machine as a
    CCommonServer without workers: CServerContentManager::Add is the loop of __AddContent (ProxyHandlers.ContentManager
    and CommonServer.Server are both proved against `Drain`), it keeps its buffers per client and drops them on a
    disconnect, and it handles each frame before it cuts the next. */
module EchoSystem {
  import opened Wire
  import opened SocketKey
  import opened Framing
  import opened Chunking
  import opened KeyedLog
  import opened SendPath
  import opened ProxyFrames
  import opened SteadyServer
  import S = ServerSteps
  import C = ClientSteps
  import W = WorkerPool

  predicate EchoFrame(frame: bytes) { IsFrame(frame) && |frame| <= MAX_ECHO + HEADER }

  predicate AllEcho(frames: seq<bytes>) {
    forall i | 0 <= i < |frames| :: EchoFrame(frames[i])
  }

  /** One upstream connection of the proxy: the TcpClient, the chunks it received, its reassembly buffer, the
      frames cut from it, and how many of those have been unwrapped and sent on. */
  datatype Hop = Hop(client: C.Client, chunks: seq<bytes>, content: bytes, frames: seq<bytes>, returned: nat)

  /** `forwarded` of the proxy's frames have been sent upstream; `handed` of the target's frames have been passed
      to its handler or a worker; `link` names the target's connection for each upstream client accepted so far. */
  datatype System = System(
    proxy: S.Server, forwarded: nat,
    hops: seq<Hop>, link: map<nat, Key>,
    target: S.Server, handed: nat, pool: W.Pool<Entry>)

  function Init(concurrency: nat, workers: nat): System {
    System(S.INIT, 0, seq(concurrency, _ => Hop(C.INIT, [], [], [], 0)), map[], S.INIT, 0, W.NewPool(workers))
  }

  datatype Action =
    | Proxy(a: S.Action)                    // a loop-thread step of the proxy's server
    | Forward                               // its next frame is wrapped and sent upstream
    | HopStep(i: nat, b: C.Action)          // a loop-thread step of upstream client i
    | HopReceive(i: nat, chunk: bytes)      // bytes the target wrote arrive there
    | Return(i: nat)                        // its next frame is unwrapped and sent to a client
    | Connect(i: nat, k: Key)               // the target accepts upstream client i
    | TargetReceive(i: nat, chunk: bytes)   // bytes upstream client i wrote arrive at the target
    | Target(a: S.Action)                   // any other loop-thread step of the target
    | Handle                                // the target's next frame goes to its handler, or to a worker
    | Work(i: nat)                          // a step of worker i

  predicate ProxyIdle(s: System) { s.forwarded == |s.proxy.cut| }

  predicate HopIdle(h: Hop) { h.client.calls.phase == Idle && h.returned == |h.frames| }

  predicate TargetIdle(s: System) { s.handed == |s.target.cut| }

  predicate Linked(s: System, i: nat) { i < |s.hops| && i in s.link && s.link[i] in s.target.table }

  /** What the target has received from upstream client i. */
  function Received(s: System, i: nat): bytes
    requires Linked(s, i)
  {
    Flatten(s.target.table[s.link[i]].chunks)
  }

  /** What the target has written to upstream client i. */
  function Echoed(s: System, i: nat): bytes
    requires Linked(s, i)
  {
    s.target.table[s.link[i]].pipe.written
  }

  predicate Enabled(s: System, a: Action) {
    match a
    case Proxy(b) =>
      && ProxyIdle(s) && Allowed(s.proxy, b)
      && (b.Receive? ==> AllEcho(Frames(Drain(S.Content(s.proxy, b.k) + b.chunk).segments)))
    case Forward => s.forwarded < |s.proxy.cut| && s.hops != []
    case HopStep(i, b) =>
      && i < |s.hops| && s.hops[i].returned == |s.hops[i].frames|
      && C.Enabled(s.hops[i].client, b) && !b.Send? && !b.Reconnect?
      && (b.TakeAsync? ==> !Full(s.hops[i].client.pipe))
    case HopReceive(i, chunk) =>
      && Linked(s, i) && HopIdle(s.hops[i]) && 0 < |chunk| <= MAX_CHUNK
      && Flatten(s.hops[i].chunks) + chunk <= Echoed(s, i)
    case Return(i) => i < |s.hops| && s.hops[i].returned < |s.hops[i].frames|
    case Connect(i, k) =>
      i < |s.hops| && i !in s.link && TargetIdle(s) && S.Enabled(s.target, S.Accept(k))
    case TargetReceive(i, chunk) =>
      && Linked(s, i) && TargetIdle(s) && s.target.calls.phase == Idle && 0 < |chunk| <= MAX_CHUNK
      && Received(s, i) + chunk <= s.hops[i].client.pipe.written
    case Target(b) => TargetIdle(s) && Allowed(s.target, b) && !b.Accept? && !b.Receive?
    case Handle => s.handed < |s.target.cut|
    case Work(i) => i < |s.pool.threads| && s.pool.threads[i].pc != W.Exited
  }

  function SetClient(s: System, i: nat, c: C.Client): System
    requires i < |s.hops|
  {
    s.(hops := s.hops[i := s.hops[i].(client := c)])
  }

  function DoForward(s: System): System
    requires s.forwarded < |s.proxy.cut| && s.hops != []
  {
    var e := s.proxy.cut[s.forwarded];
    var i := Upstream(e.0, |s.hops|);
    var c := s.hops[i].client;
    SetClient(s, i, c.(calls := Submit(c.calls, WrapFrame(e)))).(forwarded := s.forwarded + 1)
  }

  function DoHopReceive(s: System, i: nat, chunk: bytes): System
    requires i < |s.hops|
  {
    var h := s.hops[i];
    var p := Drain(h.content + chunk);
    s.(hops := s.hops[i := h.(chunks := h.chunks + [chunk], content := p.residue,
                              frames := h.frames + Frames(p.segments))])
  }

  function SendTo(s: S.Server, e: Entry): S.Server {
    S.DoSend(s, e.0, e.1)
  }

  function DoReturn(s: System, i: nat): System
    requires i < |s.hops| && s.hops[i].returned < |s.hops[i].frames|
  {
    var h := s.hops[i];
    var r := UnwrapFrame(h.frames[h.returned]);
    s.(hops := s.hops[i := h.(returned := h.returned + 1)],
       proxy := if r == [] then s.proxy else SendTo(s.proxy, r[0]))
  }

  function DoHandle(s: System): System
    requires s.handed < |s.target.cut|
  {
    var e := s.target.cut[s.handed];
    if s.pool.threads != [] then s.(handed := s.handed + 1, pool := W.Next(s.pool, W.Dispatch(e)))
    else s.(handed := s.handed + 1, target := SendTo(s.target, e))
  }

  function DoWork(s: System, i: nat): System
    requires i < |s.pool.threads|
  {
    var w, t := s.pool.threads[i], s.(pool := W.Next(s.pool, W.Run(i)));
    if w.pc == W.Handling && w.hand != [] then t.(target := SendTo(s.target, w.hand[0])) else t
  }

  function Next(s: System, a: Action): System
    requires Enabled(s, a)
  {
    match a
    case Proxy(b) => s.(proxy := S.Next(s.proxy, b))
    case Forward => DoForward(s)
    case HopStep(i, b) =>
      if s.hops[i].client.sockets == [] then s else SetClient(s, i, C.Next(s.hops[i].client, b))
    case HopReceive(i, chunk) => DoHopReceive(s, i, chunk)
    case Return(i) => DoReturn(s, i)
    case Connect(i, k) => s.(target := S.Next(s.target, S.Accept(k)), link := s.link[i := k])
    case TargetReceive(i, chunk) => s.(target := S.DoReceive(s.target, s.link[i], chunk))
    case Target(b) => s.(target := S.Next(s.target, b))
    case Handle => DoHandle(s)
    case Work(i) => DoWork(s, i)
  }

  /** run leads from s to t, every step enabled when it is taken. */
  ghost predicate Follows(s: System, run: seq<Action>, t: System)
    decreases |run|
  {
    if run == [] then s == t
    else Enabled(s, run[0]) && Follows(Next(s, run[0]), run[1..], t)
  }

  // ---- The invariant ---------------------------------------------------------------------------

  ghost predicate HopInv(h: Hop) {
    var p := FeedAll(h.chunks);
    && C.Inv(h.client) && false !in h.client.accepted && Chunked(h.chunks)
    && !p.fault && p.residue == h.content && Frames(p.segments) == h.frames
    && h.returned <= |h.frames|
  }

  ghost predicate PartsInv(s: System) {
    && s.hops != []
    && Steady(s.proxy) && Steady(s.target)
    && forall i | 0 <= i < |s.hops| :: HopInv(s.hops[i])
  }

  /** The proxy's frames whose clients use upstream i, as far as forwarded. */
  ghost function Outbound(s: System, i: nat): seq<Entry>
    requires s.hops != [] && s.forwarded <= |s.proxy.cut|
  {
    Routed(s.proxy.cut[..s.forwarded], i, |s.hops|)
  }

  ghost predicate AllEchoEntries(log: seq<Entry>) {
    forall i | 0 <= i < |log| :: EchoFrame(log[i].1)
  }

  /** Each upstream client has been given exactly its wrapped frames. */
  ghost predicate UpInv(s: System)
    requires s.hops != []
  {
    && s.forwarded <= |s.proxy.cut| && AllEchoEntries(s.proxy.cut)
    && forall i | 0 <= i < |s.hops| :: s.hops[i].client.calls.log == WrapAll(Outbound(s, i))
  }

  /** Bytes arrive as they were written, and each upstream client has its own connection at the target. */
  ghost predicate LinkInv(s: System) {
    && (forall i | i in s.link ::
          Linked(s, i) && Received(s, i) <= s.hops[i].client.pipe.written
          && Flatten(s.hops[i].chunks) <= Echoed(s, i))
    && (forall i, j | i in s.link && j in s.link :: s.link[i] == s.link[j] ==> i == j)
    && (forall i | 0 <= i < |s.hops| && i !in s.link :: s.hops[i].chunks == [])
  }

  /** Frames at the target are echoed each once, and in the order they were cut if at most one worker does it. */
  ghost predicate HandInv(s: System) {
    var n := |s.pool.threads|;
    && s.handed <= |s.target.cut|
    && (if n == 0 then s.target.calls.log == s.target.cut[..s.handed] else WorkersInv(s, n))
  }

  ghost predicate WorkersInv(s: System, n: nat)
    requires n == |s.pool.threads| && s.handed <= |s.target.cut|
  {
    && W.PoolInv(s.pool, n) && s.pool.log == s.target.cut[..s.handed]
    && W.Alive(s.pool)
    && multiset(s.target.calls.log) == W.Done(s.pool.threads, n)
    && (n == 1 ==> s.target.calls.log == s.pool.threads[0].handled)
  }

  /** What the proxy has sent to clients of upstream i is what that upstream returned. */
  ghost predicate DownInv(s: System)
    requires s.hops != []
  {
    forall i | 0 <= i < |s.hops| :: s.hops[i].returned <= |s.hops[i].frames| &&
      Routed(s.proxy.calls.log, i, |s.hops|) == UnwrapAll(s.hops[i].frames[..s.hops[i].returned])
  }

  ghost predicate Inv(s: System) {
    PartsInv(s) && UpInv(s) && LinkInv(s) && HandInv(s) && DownInv(s)
  }
}
