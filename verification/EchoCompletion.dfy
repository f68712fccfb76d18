/** The proxied echo system never gets stuck, and when nothing is left to do every frame has come back. */
module EchoCompletion {
  import opened Wire
  import opened SocketKey
  import opened Framing
  import opened Chunking
  import opened KeyedLog
  import opened SendPath
  import opened ProxyFrames
  import opened SteadyServer
  import opened EchoSystem
  import opened EchoProofs
  import opened EchoInvariant
  import S = ServerSteps
  import C = ClientSteps
  import W = WorkerPool

  predicate QuietCalls<T>(d: Deferred<T>) { d.functions == [] && d.batch == [] }

  ghost predicate QuietServer(s: S.Server) {
    QuietCalls(s.calls) && forall k | k in s.table :: s.table[k].pipe.queue == []
  }

  predicate QuietHop(h: Hop) {
    QuietCalls(h.client.calls) && h.client.pipe.queue == [] && h.returned == |h.frames|
  }

  /** Nothing written on the connection of upstream i, either way, is still under way. */
  predicate QuietLink(s: System, i: nat)
    requires i < |s.hops|
  {
    if Linked(s, i) then Received(s, i) == s.hops[i].client.pipe.written && Flatten(s.hops[i].chunks) == Echoed(s, i)
    else s.hops[i].client.pipe.written == []
  }

  predicate NoneHeld(p: W.Pool<Entry>) {
    forall i | 0 <= i < |p.threads| :: p.threads[i].queue == [] && p.threads[i].hand == []
  }

  predicate QuietFrames(s: System) {
    s.forwarded == |s.proxy.cut| && s.handed == |s.target.cut| && NoneHeld(s.pool)
  }

  /** All queues, buffers in flight and lists of calls are empty. */
  ghost predicate Quiet(s: System) {
    && QuietFrames(s) && QuietServer(s.proxy) && QuietServer(s.target)
    && forall i | 0 <= i < |s.hops| :: QuietHop(s.hops[i]) && QuietLink(s, i)
  }

  // ---- One client's path -----------------------------------------------------------------------

  /** Nothing is waiting to be written to client k. */
  predicate QuietClient(s: S.Server, k: Key) {
    k in s.table && Of(s.calls.batch, k) == [] && Of(s.calls.functions, k) == [] && s.table[k].pipe.queue == []
  }

  predicate HoldsNone(t: W.Thread<Entry>, k: Key) {
    (forall e | e in t.hand :: e.0 != k) && (forall e | e in t.queue :: e.0 != k)
  }

  /** Every frame the target cut for client k has been echoed and written. */
  predicate QuietTarget(s: System, k: Key) {
    && QuietClient(s.target, k)
    && s.handed <= |s.target.cut| && Of(s.target.cut[s.handed..], k) == []
    && forall j | 0 <= j < |s.pool.threads| :: HoldsNone(s.pool.threads[j], k)
  }

  /** Nothing is under way on upstream i. */
  predicate QuietUpstream(s: System, i: nat)
    requires i < |s.hops|
  {
    QuietHop(s.hops[i]) && QuietLink(s, i) && (Linked(s, i) ==> QuietTarget(s, s.link[i]))
  }

  /** Nothing of client k is under way: none of its frames waits to be forwarded, its upstream is quiet, and nothing
      waits to be written to it. Other clients and upstreams may be busy, or not connected. */
  predicate QuietPath(s: System, k: Key)
    requires s.hops != []
  {
    && s.forwarded <= |s.proxy.cut| && Of(s.proxy.cut[s.forwarded..], k) == []
    && QuietUpstream(s, Upstream(k, |s.hops|)) && QuietClient(s.proxy, k)
  }

  lemma {:induction false} NoEntries(log: seq<Entry>, k: Key)
    requires log == []
    ensures Of(log, k) == []
  {
  }

  lemma QuietServerClient(s: S.Server, k: Key)
    requires QuietServer(s) && k in s.table
    ensures QuietClient(s, k)
  {
    NoEntries(s.calls.batch, k);
    NoEntries(s.calls.functions, k);
  }

  lemma QuietFramesTarget(s: System, k: Key)
    requires QuietFrames(s) && QuietServer(s.target) && k in s.target.table
    ensures QuietTarget(s, k)
  {
    hide Of, QuietClient;
    QuietServerClient(s.target, k);
    NoEntries(s.target.cut[s.handed..], k);
  }

  lemma QuietHasQuietPaths(s: System, k: Key)
    requires s.hops != [] && Quiet(s) && k in s.proxy.table
    ensures QuietPath(s, k)
  {
    hide Received, Echoed, QuietHop, QuietLink, QuietServer, QuietClient, QuietTarget, NoneHeld, Of;
    var i := Upstream(k, |s.hops|);
    QuietServerClient(s.proxy, k);
    NoEntries(s.proxy.cut[s.forwarded..], k);
    assert QuietHop(s.hops[i]) && QuietLink(s, i);
    if Linked(s, i) {
      QuietFramesTarget(s, s.link[i]);
    }
  }

  // ---- Completeness ----------------------------------------------------------------------------

  lemma QuietClientWrote(s: S.Server, k: Key)
    requires Steady(s) && QuietClient(s, k)
    ensures s.table[k].pipe.written == Payloads(s.calls.log, k)
  {
    hide Steady, Of;
    WholeStreams(s, k);
    assert Flatten<byte>([]) == [];
  }

  lemma QuietHopWrote(c: C.Client)
    requires C.Inv(c) && false !in c.accepted && QuietCalls(c.calls) && c.pipe.queue == []
    ensures c.pipe.written == Flatten(c.calls.log)
  {
    C.SendStream(c);
  }

  /** The target has echoed all frames it cut for a quiet client. */
  lemma QuietEchoes(s: System, i: nat)
    requires HandInv(s) && i in s.link && QuietTarget(s, s.link[i])
    ensures multiset(EchoedFrames(s, i)) == multiset(Of(s.target.cut, s.link[i]))
    ensures Ordered(s) ==> EchoedFrames(s, i) == Of(s.target.cut, s.link[i])
  {
    hide HandInv, Of, QuietClient;
    var k, log, cut, n := s.link[i], s.target.calls.log, s.target.cut, |s.pool.threads|;
    EchoedOrHeld(s);
    TargetSends(s, k);
    SplitOf(cut, s.handed, k);
    forall x: bytes ensures multiset(Of(log, k))[x] == multiset(Of(cut, k))[x] {
      OfCount(log, k, x);
      OfCount(cut[..s.handed], k, x);
      assert forall j | 0 <= j < n :: HoldsNone(s.pool.threads[j], k);
      W.HeldByNone(s.pool.threads, n, (k, x));
    }
    SameLength(Of(log, k), Of(cut, k));
  }

  lemma SameLength<T>(a: seq<T>, b: seq<T>)
    requires multiset(a) == multiset(b)
    ensures |a| == |b| && (a <= b ==> a == b)
  {
    assert |multiset(a)| == |a| && |multiset(b)| == |b|;
  }

  lemma HopClient(s: System, i: nat)
    requires PartsInv(s) && UpInv(s) && i < |s.hops|
    ensures C.Inv(s.hops[i].client) && false !in s.hops[i].client.accepted
    ensures s.hops[i].client.calls.log == Sent(s, i) && s.forwarded <= |s.proxy.cut|
  {
    assert HopInv(s.hops[i]);
  }

  /** A quiet upstream has brought back every frame sent on it. */
  lemma QuietHopFrames(s: System, i: nat)
    requires PartsInv(s) && UpInv(s) && LinkInv(s) && HandInv(s) && i < |s.hops| && QuietUpstream(s, i)
    ensures multiset(s.hops[i].frames) == multiset(Sent(s, i))
    ensures Ordered(s) ==> s.hops[i].frames == Sent(s, i)
  {
    hide Steady, HopInv, Sent, Outbound, Flatten, QuietClient, EchoedFrames;
    PartsOf(s);
    HopClient(s, i);
    QuietHopWrote(s.hops[i].client);
    if Linked(s, i) {
      var k := s.link[i];
      assert i in s.link;
      TargetCuts(s, i);
      QuietEchoes(s, i);
      QuietClientWrote(s.target, k);
      EchoedStream(s, i);
      LinkedHopFrames(s, i);
    } else {
      assert s.hops[i].chunks == [];
      NothingCut(s.hops[i]);
      OutboundIsEcho(s, i);
      NothingSent(Sent(s, i));
    }
  }

  lemma EchoedStream(s: System, i: nat)
    requires i in s.link
    ensures Flatten(EchoedFrames(s, i)) == Payloads(s.target.calls.log, s.link[i])
  {
  }

  lemma NothingCut(h: Hop)
    requires HopInv(h) && h.chunks == []
    ensures h.frames == []
  {
    assert FeedAll([]) == EMPTY;
  }

  lemma NothingSent(frames: seq<bytes>)
    requires SafeFrames(frames) && Flatten(frames) == []
    ensures frames == []
  {
    if frames != [] {
      assert false;
    }
  }

  lemma QuietReturned(s: System, i: nat)
    requires Inv(s) && i < |s.hops| && QuietUpstream(s, i)
    ensures multiset(Routed(s.proxy.calls.log, i, |s.hops|)) == multiset(Outbound(s, i))
    ensures Ordered(s) ==> Routed(s.proxy.calls.log, i, |s.hops|) == Outbound(s, i)
  {
    hide PartsInv, UpInv, LinkInv, HandInv, AllForwardable, Routed, Outbound, QuietUpstream, UnwrapAll, HopInv;
    QuietHopFrames(s, i);
    OutboundIsEcho(s, i);
    HopClient(s, i);
    QuietHopReturned(s, i);
    UnwrapSubset(s.hops[i].frames, Outbound(s, i));
    if Ordered(s) {
      UnwrapPrefix(Outbound(s, i), s.hops[i].frames, |s.hops[i].frames|);
      assert s.hops[i].frames[..|s.hops[i].frames|] == s.hops[i].frames;
      assert Outbound(s, i)[..|s.hops[i].frames|] == Outbound(s, i) by {
        WrappedLength(Outbound(s, i), s.hops[i].frames);
      }
    }
  }

  lemma WrappedLength(log: seq<Entry>, frames: seq<bytes>)
    requires frames == WrapAll(log)
    ensures |log| == |frames|
  {
  }

  lemma QuietHopReturned(s: System, i: nat)
    requires s.hops != [] && DownInv(s) && i < |s.hops| && QuietUpstream(s, i)
    ensures Routed(s.proxy.calls.log, i, |s.hops|) == UnwrapAll(s.hops[i].frames)
  {
    hide QuietLink, QuietTarget, Routed, UnwrapAll;
    assert s.hops[i].frames[..s.hops[i].returned] == s.hops[i].frames;
  }

  /** Once nothing of a client is under way, it has been written back exactly the frames the proxy cut from what it
      received from that client, each as often as it was cut; in the same order if at most one worker echoes. */
  lemma EchoComplete(s: System, k: Key) returns (echoed: seq<bytes>)
    requires Inv(s) && QuietPath(s, k)
    ensures s.proxy.table[k].pipe.written == Flatten(echoed)
    ensures multiset(echoed) == multiset(ClientFrames(s, k))
    ensures Ordered(s) ==> echoed == ClientFrames(s, k)
  {
    hide Inv, QuietUpstream, Steady, HopInv, Flatten, Routed, Of, FeedAll, Frames, QuietClient, WrapAll;
    var n, log, cut := |s.hops|, s.proxy.calls.log, s.proxy.cut;
    InvParts(s);
    QuietReturned(s, Upstream(k, n));
    SameOf(log, cut[..s.forwarded], k, n);
    SplitOf(cut, s.forwarded, k);
    QuietClientWrote(s.proxy, k);
    Known(s.proxy, k);
    WholeStreams(s.proxy, k);
    echoed := Of(log, k);
  }

  lemma Known(s: S.Server, k: Key)
    requires QuietClient(s, k)
    ensures k in s.table
  {
  }

  lemma SplitOf(log: seq<Entry>, n: nat, k: Key)
    requires n <= |log| && Of(log[n..], k) == []
    ensures Of(log[..n], k) == Of(log, k)
  {
    assert log == log[..n] + log[n..];
    OfAppend(log[..n], log[n..], k);
  }

  lemma SameOf(a: seq<Entry>, b: seq<Entry>, k: Key, n: nat)
    requires n > 0
    requires var i := Upstream(k, n); multiset(Routed(a, i, n)) == multiset(Routed(b, i, n))
    ensures multiset(Of(a, k)) == multiset(Of(b, k))
    ensures Routed(a, Upstream(k, n), n) == Routed(b, Upstream(k, n), n) ==> Of(a, k) == Of(b, k)
  {
    hide Routed, Of;
    var i := Upstream(k, n);
    OfRouted(a, k, n);
    OfRouted(b, k, n);
    OfSubset(Routed(a, i, n), Routed(b, i, n), k);
    OfSubset(Routed(b, i, n), Routed(a, i, n), k);
  }

  lemma InvParts(s: System)
    requires Inv(s)
    ensures s.hops != [] && Steady(s.proxy) && Steady(s.target)
  {
  }

  // ---- Deadlock freedom ------------------------------------------------------------------------

  /** Steps that carry data onwards; accepting clients, receiving from them and accepting upstream connections are
      the environment's. */
  predicate Delivers(s: System, a: Action) {
    match a
    case Proxy(b) => S.Delivers(s.proxy, b)
    case HopStep(i, b) => i < |s.hops| && C.Delivers(s.hops[i].client, b)
    case Target(b) => S.Delivers(s.target, b)
    case Connect(_, _) => false
    case Work(i) => i < |s.pool.threads| && (s.pool.threads[i].hand != [] || s.pool.threads[i].queue != [])
    case _ => true
  }

  ghost predicate NoneFull(s: S.Server) {
    forall k | k in s.table :: !Full(s.table[k].pipe)
  }

  lemma ServerMoves(s: S.Server) returns (b: S.Action)
    requires Steady(s) && NoneFull(s) && !QuietServer(s)
    ensures Allowed(s, b) && S.Delivers(s, b) && !b.Accept? && !b.Receive?
  {
    hide Steady, S.Inv;
    SteadyInv(s);
    b := S.NoStrandedData(s);
  }

  lemma SteadyInv(s: S.Server)
    requires Steady(s)
    ensures S.Inv(s)
  {
  }

  lemma ClientMoves(c: C.Client) returns (b: C.Action)
    requires C.Inv(c) && (!QuietCalls(c.calls) || c.pipe.queue != [])
    ensures C.Enabled(c, b) && C.Delivers(c, b) && !b.Send? && !b.Reconnect?
  {
    hide C.Inv;
    b := C.NoStrandedData(c);
  }

  /** A loop thread inside its callback with nothing left to run can leave it. */
  lemma LeaveCallback<T>(d: Deferred<T>)
    requires QuietCalls(d) && d.phase != Idle
    ensures CanSwap(d) || CanEnd(d)
  {
  }

  lemma NextChunk(received: bytes, written: bytes) returns (chunk: bytes)
    requires received < written
    ensures 0 < |chunk| <= MAX_CHUNK && received + chunk <= written
  {
    var n := |received|;
    var m := if |written| - n > MAX_CHUNK then n + MAX_CHUNK else |written|;
    chunk := written[n..m];
    assert received + chunk == written[..m];
  }

  lemma LinkMoves(s: System, i: nat) returns (a: Action)
    requires LinkInv(s) && i in s.link && i < |s.hops| && QuietFrames(s)
    requires QuietServer(s.target) && QuietHop(s.hops[i]) && !QuietLink(s, i)
    ensures Enabled(s, a) && Delivers(s, a)
  {
    hide Flatten;
    assert Linked(s, i);
    if s.target.calls.phase != Idle {
      LeaveCallback(s.target.calls);
      a := Target(if CanSwap(s.target.calls) then S.SwapAsync else S.EndAsync);
    } else if s.hops[i].client.calls.phase != Idle {
      LeaveCallback(s.hops[i].client.calls);
      a := HopStep(i, if CanSwap(s.hops[i].client.calls) then C.SwapAsync else C.EndAsync);
    } else if Received(s, i) != s.hops[i].client.pipe.written {
      var chunk := NextChunk(Received(s, i), s.hops[i].client.pipe.written);
      a := TargetReceive(i, chunk);
    } else {
      var chunk := NextChunk(Flatten(s.hops[i].chunks), Echoed(s, i));
      a := HopReceive(i, chunk);
    }
  }

  lemma HopMoves(s: System, i: nat) returns (a: Action)
    requires i < |s.hops| && HopInv(s.hops[i]) && !Full(s.hops[i].client.pipe) && !QuietHop(s.hops[i])
    ensures Enabled(s, a) && Delivers(s, a)
  {
    hide C.Inv, C.Enabled, FeedAll, Frames;
    var h := s.hops[i];
    if h.returned != |h.frames| {
      a := Return(i);
    } else {
      var b := ClientMoves(h.client);
      a := HopStep(i, b);
    }
  }

  lemma FramesMove(s: System) returns (a: Action)
    requires s.hops != [] && s.forwarded <= |s.proxy.cut| && HandInv(s) && !QuietFrames(s)
    ensures Enabled(s, a) && Delivers(s, a)
  {
    hide W.PoolInv;
    if s.forwarded != |s.proxy.cut| {
      a := Forward;
    } else if s.handed != |s.target.cut| {
      a := Handle;
    } else {
      var i :| 0 <= i < |s.pool.threads| && !(s.pool.threads[i].queue == [] && s.pool.threads[i].hand == []);
      a := Work(i);
    }
  }

  /** The target has accepted upstream i, or nothing is for it. */
  ghost predicate Reached(s: System, i: nat)
    requires s.hops != []
  {
    i in s.link || Routed(s.proxy.cut, i, |s.hops|) == []
  }

  lemma UnusedIsQuiet(s: System, i: nat)
    requires Inv(s) && i < |s.hops| && i !in s.link && Reached(s, i)
    ensures QuietLink(s, i)
  {
    hide DownInv, HandInv, LinkInv, Steady, Routed;
    assert s.forwarded <= |s.proxy.cut|;
    RoutedPrefix(s.proxy.cut[..s.forwarded], s.proxy.cut, i, |s.hops|);
    UpstreamWrites(s, i);
  }

  /** No deadlock: with every upstream client that is used accepted by the target and no write queue full, as long as
      anything is under way some step carries it onwards. */
  lemma NoDeadlock(s: System) returns (a: Action)
    requires Inv(s) && !Quiet(s)
    requires forall i | 0 <= i < |s.hops| :: Reached(s, i) && !Full(s.hops[i].client.pipe)
    requires NoneFull(s.proxy) && NoneFull(s.target)
    ensures Enabled(s, a) && Delivers(s, a)
  {
    hide PartsInv, LinkInv, HandInv, DownInv, QuietServer, QuietHop, QuietLink, Full, NoneFull, HopInv, Steady, Allowed;
    hide C.Enabled, C.Delivers, S.Delivers, AllEchoEntries, QuietFrames;
    assert s.forwarded <= |s.proxy.cut|;
    hide UpInv;
    PartsOf(s);
    if !QuietFrames(s) {
      a := FramesMove(s);
    } else if !QuietServer(s.proxy) {
      var b := ServerMoves(s.proxy);
      ProxyMoves(s, b);
      a := Proxy(b);
    } else if !QuietServer(s.target) {
      var b := ServerMoves(s.target);
      TargetMoves(s, b);
      a := Target(b);
    } else {
      var i :| 0 <= i < |s.hops| && !(QuietHop(s.hops[i]) && QuietLink(s, i));
      if !QuietHop(s.hops[i]) {
        a := HopMoves(s, i);
      } else {
        if i !in s.link {
          UnusedIsQuiet(s, i);
        }
        a := LinkMoves(s, i);
      }
    }
  }

  lemma ProxyMoves(s: System, b: S.Action)
    requires QuietFrames(s) && Allowed(s.proxy, b) && S.Delivers(s.proxy, b) && !b.Receive?
    ensures Enabled(s, Proxy(b)) && Delivers(s, Proxy(b))
  {
  }

  lemma TargetMoves(s: System, b: S.Action)
    requires QuietFrames(s) && Allowed(s.target, b) && S.Delivers(s.target, b) && !b.Receive? && !b.Accept?
    ensures Enabled(s, Target(b)) && Delivers(s, Target(b))
  {
  }

  // ---- The whole system from its start ---------------------------------------------------------

  /** End to end, over every run: with any number of clients, upstream connections, workers and interleavings, a client
      is written back frames of its own, each at most as often as the proxy cut it, and each exactly as often once
      nothing of that client is under way; and with at most one worker in order. */
  lemma ProxiedEcho(n: nat, workers: nat, run: seq<Action>, s: System, k: Key) returns (echoed: seq<bytes>)
    requires n > 0 && Follows(Init(n, workers), run, s) && k in s.proxy.table
    ensures s.hops != []
    ensures s.proxy.table[k].pipe.written <= Flatten(echoed) && multiset(echoed) <= multiset(ClientFrames(s, k))
    ensures workers <= 1 ==> echoed <= ClientFrames(s, k)
    ensures QuietPath(s, k) ==>
      s.proxy.table[k].pipe.written == Flatten(echoed) && multiset(echoed) == multiset(ClientFrames(s, k))
    ensures QuietPath(s, k) && workers <= 1 ==> s.proxy.table[k].pipe.written == Flatten(ClientFrames(s, k))
  {
    hide Inv, QuietPath, ClientFrames, Flatten, Enabled, Next, Init;
    InitInv(n, workers);
    RunKeepsInv(Init(n, workers), run, s);
    WorkersStay(n, workers, run, s);
    InvParts(s);
    if QuietPath(s, k) {
      echoed := EchoComplete(s, k);
    } else {
      echoed := EchoSafety(s, k);
    }
  }

  lemma WorkersStay(n: nat, workers: nat, run: seq<Action>, s: System)
    requires Follows(Init(n, workers), run, s)
    ensures |s.pool.threads| == workers
  {
    SameWorkers(Init(n, workers), run, s);
  }

  lemma {:induction false} SameWorkers(s: System, run: seq<Action>, t: System)
    requires Follows(s, run, t)
    ensures |t.pool.threads| == |s.pool.threads|
    decreases |run|
  {
    hide Enabled, Next;
    if run != [] {
      NextKeepsWorkers(s, run[0]);
      SameWorkers(Next(s, run[0]), run[1..], t);
    }
  }

  lemma NextKeepsWorkers(s: System, a: Action)
    requires Enabled(s, a)
    ensures |Next(s, a).pool.threads| == |s.pool.threads|
  {
    hide Drain, Frames, Flatten, UnwrapFrame, WrapFrame, W.Step, S.Next, C.Next, Allowed;
  }
}
