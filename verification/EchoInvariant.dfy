/** Every step of the proxied echo system keeps its invariant. */
module EchoInvariant {
  import opened Wire
  import opened SocketKey
  import opened Framing
  import opened Chunking
  import opened KeyedLog
  import opened SendPath
  import opened ProxyFrames
  import opened SteadyServer
  import opened EchoSystem
  import opened EchoProofs
  import S = ServerSteps
  import C = ClientSteps
  import W = WorkerPool

  lemma EmptyHopInv()
    ensures HopInv(Hop(C.INIT, [], [], [], 0))
  {
    C.InitInv();
    assert FeedAll([]) == EMPTY;
  }

  lemma InitHandInv(n: nat, workers: nat)
    ensures HandInv(Init(n, workers))
  {
    if workers > 0 {
      W.PoolSafety<Entry>(workers, []);
      NothingDone<Entry>(workers, workers);
    }
  }

  lemma {:induction false} NothingDone<P>(n: nat, m: nat)
    requires m <= n
    ensures W.Done(W.NewPool<P>(n).threads, m) == multiset{}
  {
    if m > 0 {
      NothingDone<P>(n, m - 1);
    }
  }

  lemma InitPartsInv(n: nat, workers: nat)
    requires n > 0
    ensures PartsInv(Init(n, workers))
  {
    hide HopInv, S.Inv;
    EmptyHopInv();
    S.InitInv();
  }

  lemma InitUpInv(n: nat, workers: nat)
    requires n > 0
    ensures UpInv(Init(n, workers))
  {
    var s := Init(n, workers);
    assert s.proxy.cut[..0] == [];
    forall i | 0 <= i < n ensures s.hops[i].client.calls.log == WrapAll(Outbound(s, i)) {
      assert Outbound(s, i) == [];
    }
  }

  lemma InitInv(n: nat, workers: nat)
    requires n > 0
    ensures Inv(Init(n, workers))
  {
    InitPartsInv(n, workers);
    InitUpInv(n, workers);
    InitHandInv(n, workers);
    hide PartsInv, UpInv, HandInv;
    var s := Init(n, workers);
    forall i | 0 <= i < n ensures Routed(s.proxy.calls.log, i, n) == UnwrapAll(s.hops[i].frames[..0]) {
    }
  }

  // ---- What each part of the invariant depends on -----------------------------------------------

  lemma UpFrame(s: System, t: System)
    requires s.hops != [] && UpInv(s)
    requires t.forwarded == s.forwarded && |t.hops| == |s.hops|
    requires s.proxy.cut <= t.proxy.cut && AllEchoEntries(t.proxy.cut)
    requires forall i | 0 <= i < |s.hops| :: t.hops[i].client.calls.log == s.hops[i].client.calls.log
    ensures UpInv(t)
  {
    hide WrapAll, Routed, AllEchoEntries;
    assert t.proxy.cut[..t.forwarded] == s.proxy.cut[..s.forwarded];
    forall i | 0 <= i < |t.hops| ensures t.hops[i].client.calls.log == WrapAll(Outbound(t, i)) {
      assert Outbound(t, i) == Outbound(s, i);
    }
  }

  ghost predicate LinkGrows(s: System, t: System, i: nat)
    requires Linked(s, i)
  {
    && Linked(t, i) && Received(t, i) == Received(s, i) && Echoed(s, i) <= Echoed(t, i)
    && s.hops[i].client.pipe.written <= t.hops[i].client.pipe.written
    && t.hops[i].chunks == s.hops[i].chunks
  }

  lemma LinkFrame(s: System, t: System)
    requires LinkInv(s)
    requires t.link == s.link && |t.hops| == |s.hops|
    requires forall i | i in s.link :: Linked(s, i) && LinkGrows(s, t, i)
    requires forall i | 0 <= i < |s.hops| :: t.hops[i].chunks == s.hops[i].chunks
    ensures LinkInv(t)
  {
    hide Received, Echoed, Flatten;
    forall i | i in t.link
      ensures Linked(t, i) && Received(t, i) <= t.hops[i].client.pipe.written && Flatten(t.hops[i].chunks) <= Echoed(t, i)
    {
      assert LinkGrows(s, t, i);
    }
  }

  lemma HandFrame(s: System, t: System)
    requires HandInv(s)
    requires t.handed == s.handed && t.pool == s.pool
    requires s.target.cut <= t.target.cut && t.target.calls.log == s.target.calls.log
    ensures HandInv(t)
  {
    hide W.PoolInv;
    assert t.target.cut[..t.handed] == s.target.cut[..s.handed];
  }

  lemma DownFrame(s: System, t: System)
    requires s.hops != [] && DownInv(s)
    requires t.proxy.calls.log == s.proxy.calls.log && |t.hops| == |s.hops|
    requires forall i | 0 <= i < |s.hops| ::
      t.hops[i].returned == s.hops[i].returned && s.hops[i].frames <= t.hops[i].frames
    ensures DownInv(t)
  {
    hide Routed, UnwrapAll;
    forall i | 0 <= i < |t.hops|
      ensures t.hops[i].returned <= |t.hops[i].frames|
      ensures Routed(t.proxy.calls.log, i, |t.hops|) == UnwrapAll(t.hops[i].frames[..t.hops[i].returned])
    {
      assert t.hops[i].frames[..t.hops[i].returned] == s.hops[i].frames[..s.hops[i].returned];
    }
  }

  lemma PartsFrame(s: System, t: System, i: nat)
    requires PartsInv(s)
    requires t.target == s.target && |t.hops| == |s.hops| && i < |s.hops|
    requires Steady(t.proxy) && HopInv(t.hops[i])
    requires forall j | 0 <= j < |s.hops| && j != i :: t.hops[j] == s.hops[j]
    ensures PartsInv(t)
  {
    hide Steady, HopInv;
  }

  lemma PartsOf(s: System)
    requires PartsInv(s)
    ensures s.hops != [] && Steady(s.proxy) && Steady(s.target)
    ensures forall i | 0 <= i < |s.hops| :: HopInv(s.hops[i])
  {
  }

  lemma AllLinked(s: System)
    requires LinkInv(s)
    ensures forall i | i in s.link :: Linked(s, i)
  {
  }

  // ---- The proxy's server ----------------------------------------------------------------------

  lemma {:induction false} TagEcho(k: Key, frames: seq<bytes>)
    requires AllEcho(frames)
    ensures AllEchoEntries(Tag(k, frames))
  {
    hide EchoFrame;
    if frames != [] {
      assert AllEcho(frames[1..]);
      TagEcho(k, frames[1..]);
    }
  }

  lemma ProxyCutsEcho(s: System, b: S.Action)
    requires AllEchoEntries(s.proxy.cut) && Enabled(s, Proxy(b))
    ensures AllEchoEntries(S.Next(s.proxy, b).cut)
  {
    StepGrows(s.proxy, b);
    if b.Receive? {
      TagEcho(b.k, Frames(Drain(S.Content(s.proxy, b.k) + b.chunk).segments));
    }
    hide EchoFrame, S.Next, Drain;
  }

  lemma ProxyKeepsParts(s: System, b: S.Action)
    requires PartsInv(s) && Enabled(s, Proxy(b))
    ensures PartsInv(Next(s, Proxy(b)))
  {
    hide Steady, HopInv, S.Next, Allowed, Drain, Frames, AllEcho;
    StepKeepsSteady(s.proxy, b);
  }

  lemma ProxyKeepsInv(s: System, b: S.Action)
    requires Inv(s) && Enabled(s, Proxy(b))
    ensures Inv(Next(s, Proxy(b)))
  {
    hide PartsInv, LinkInv, HandInv, DownInv, S.Next, AllEchoEntries, Allowed, Drain, Frames, AllEcho, WrapAll, Routed;
    ProxyCutsEcho(s, b);
    hide UpInv;
    var t := Next(s, Proxy(b));
    PartsOf(s);
    ProxyKeepsParts(s, b);
    AllLinked(s);
    StepGrows(s.proxy, b);
    UpFrame(s, t);
    LinkFrame(s, t);
    HandFrame(s, t);
    DownFrame(s, t);
  }

  // ---- Forwarding ------------------------------------------------------------------------------

  lemma ForwardKeepsUp(s: System)
    requires s.hops != [] && UpInv(s) && Enabled(s, Forward)
    ensures UpInv(Next(s, Forward))
  {
    var t, n, e := Next(s, Forward), |s.hops|, s.proxy.cut[s.forwarded];
    assert s.proxy.cut[..t.forwarded] == s.proxy.cut[..s.forwarded] + [e];
    forall i | 0 <= i < n ensures t.hops[i].client.calls.log == WrapAll(Outbound(t, i)) {
      RoutedStep(s.proxy.cut[..s.forwarded], e, i, n);
      WrapAllStep(Outbound(s, i), e);
    }
  }

  lemma SendKeepsHop(h: Hop, data: bytes)
    requires HopInv(h)
    ensures HopInv(h.(client := h.client.(calls := Submit(h.client.calls, data))))
  {
    C.NextKeepsInv(h.client, C.Send(data));
    hide C.Inv, FeedAll, Frames;
  }

  lemma ForwardKeepsParts(s: System)
    requires PartsInv(s) && Enabled(s, Forward)
    ensures PartsInv(Next(s, Forward))
  {
    hide Steady, HopInv, WrapFrame;
    var e := s.proxy.cut[s.forwarded];
    var i := Upstream(e.0, |s.hops|);
    SendKeepsHop(s.hops[i], WrapFrame(e));
  }

  lemma ForwardKeepsInv(s: System)
    requires Inv(s) && Enabled(s, Forward)
    ensures Inv(Next(s, Forward))
  {
    hide PartsInv, UpInv, LinkInv, HandInv, DownInv, WrapFrame;
    var t := Next(s, Forward);
    ForwardKeepsUp(s);
    ForwardKeepsParts(s);
    AllLinked(s);
    LinkFrame(s, t);
    HandFrame(s, t);
    DownFrame(s, t);
  }

  // ---- Upstream clients ------------------------------------------------------------------------

  lemma ClientStep(c: C.Client, b: C.Action)
    requires C.Inv(c) && C.Enabled(c, b) && false !in c.accepted
    requires !b.Send? && !b.Reconnect? && (b.TakeAsync? ==> !Full(c.pipe))
    ensures var d := C.Next(c, b);
      C.Inv(d) && d.calls.log == c.calls.log && false !in d.accepted && c.pipe.written <= d.pipe.written
  {
    C.NextKeepsInv(c, b);
    if b.WriteReady? {
      WriteStream(c.pipe, b.n);
    }
    hide C.Inv;
  }

  lemma StepHop(h: Hop, b: C.Action)
    requires HopInv(h) && C.Enabled(h.client, b)
    requires !b.Send? && !b.Reconnect? && (b.TakeAsync? ==> !Full(h.client.pipe))
    ensures h.client.sockets != []
    ensures var c := C.Next(h.client, b);
      HopInv(h.(client := c)) && c.calls.log == h.client.calls.log && h.client.pipe.written <= c.pipe.written
  {
    hide C.Next, FeedAll, Frames;
    ClientStep(h.client, b);
  }

  lemma HopStepKeepsInv(s: System, i: nat, b: C.Action)
    requires Inv(s) && Enabled(s, HopStep(i, b))
    ensures Inv(Next(s, HopStep(i, b)))
  {
    hide PartsInv, LinkInv, HandInv, DownInv, HopInv, C.Next, C.Enabled, AllEchoEntries, WrapAll, Routed, Steady;
    hide Flatten, Drain, Frames, AllEcho, Allowed, S.Enabled, Full;
    assert AllEchoEntries(s.proxy.cut);
    hide UpInv;
    var t := Next(s, HopStep(i, b));
    PartsOf(s);
    AllLinked(s);
    StepHop(s.hops[i], b);
    PartsFrame(s, t, i);
    UpFrame(s, t);
    LinkFrame(s, t);
    HandFrame(s, t);
    DownFrame(s, t);
  }

  /** One more chunk of a stream of safe frames, received as the code does it. */
  lemma ReceiveHop(h: Hop, chunk: bytes, frames: seq<bytes>)
    requires HopInv(h) && SafeFrames(frames) && 0 < |chunk| <= MAX_CHUNK
    requires Flatten(h.chunks) + chunk <= Flatten(frames)
    ensures var p := Drain(h.content + chunk);
      HopInv(h.(chunks := h.chunks + [chunk], content := p.residue, frames := h.frames + Frames(p.segments)))
  {
    hide Drain, Greedy, FeedAll, Frames, C.Inv, Flatten, IsFrame;
    ReceiveOfPrefix(h.chunks, chunk, frames);
    FeedMore(h.chunks, chunk);
    FramesAppend(FeedAll(h.chunks).segments, Drain(h.content + chunk).segments);
  }

  lemma HopReceiveKeepsHop(s: System, i: nat, chunk: bytes)
    requires Inv(s) && Enabled(s, HopReceive(i, chunk))
    ensures i < |s.hops| && HopInv(DoHopReceive(s, i, chunk).hops[i])
  {
    hide PartsInv, UpInv, LinkInv, HandInv, DownInv, Drain, Frames, HopInv, Steady, SafeFrames, Flatten, Of;
    PartsOf(s);
    LinkedHopFrames(s, i);
    WrittenIsPrefix(s.target, s.link[i]);
    ReceiveHop(s.hops[i], chunk, Of(s.target.calls.log, s.link[i]));
  }

  lemma HopReceiveKeepsLink(s: System, i: nat, chunk: bytes)
    requires LinkInv(s) && Enabled(s, HopReceive(i, chunk))
    ensures LinkInv(Next(s, HopReceive(i, chunk)))
  {
    hide Flatten, Drain, Frames;
    FlattenSingle(s.hops[i].chunks, chunk);
  }

  lemma HopReceiveKeepsInv(s: System, i: nat, chunk: bytes)
    requires Inv(s) && Enabled(s, HopReceive(i, chunk))
    ensures Inv(Next(s, HopReceive(i, chunk)))
  {
    hide PartsInv, LinkInv, HandInv, DownInv, HopInv, Drain, Frames, AllEchoEntries, WrapAll, Routed, Flatten;
    hide Steady, AllEcho, Allowed, S.Enabled, C.Enabled, Full;
    assert AllEchoEntries(s.proxy.cut);
    hide UpInv;
    var t := Next(s, HopReceive(i, chunk));
    PartsOf(s);
    HopReceiveKeepsHop(s, i, chunk);
    HopReceiveKeepsLink(s, i, chunk);
    PartsFrame(s, t, i);
    UpFrame(s, t);
    HandFrame(s, t);
    DownFrame(s, t);
  }

  // ---- Returning -------------------------------------------------------------------------------

  lemma {:induction false} RoutedMember(log: seq<Entry>, i: nat, n: nat, table: map<Key, S.Conn>, j: nat)
    requires n > 0 && AllKnown(log, table) && j < |Routed(log, i, n)|
    ensures Upstream(Routed(log, i, n)[j].0, n) == i && Routed(log, i, n)[j].0 in table
  {
    hide Upstream;
    if log != [] {
      var m := |log| - 1;
      if j < |Routed(log[..m], i, n)| {
        RoutedMember(log[..m], i, n, table, j);
      }
    }
  }

  /** The frame a hop returns next unwraps to an entry that was forwarded on it. */
  lemma ReturnedEntry(s: System, i: nat) returns (e: Entry)
    requires Inv(s) && i < |s.hops| && s.hops[i].returned < |s.hops[i].frames|
    ensures UnwrapFrame(s.hops[i].frames[s.hops[i].returned]) == [e]
    ensures e.0 in s.proxy.table && Upstream(e.0, |s.hops|) == i
  {
    hide PartsInv, LinkInv, HandInv, DownInv, UnwrapFrame, WrapFrame, Routed, Forwardable, EchoFrame;
    HopFrames(s, i);
    OutboundIsEcho(s, i);
    PartsOf(s);
    var j := SubsetMember(s.hops[i].frames, Sent(s, i), s.hops[i].returned);
    e := Outbound(s, i)[j];
    UnwrapWrapFrame(e);
    RoutedMember(s.proxy.cut[..s.forwarded], i, |s.hops|, s.proxy.table, j);
  }

  lemma ReturnKeepsDown(s: System, i: nat, e: Entry)
    requires s.hops != [] && DownInv(s) && Enabled(s, Return(i))
    requires UnwrapFrame(s.hops[i].frames[s.hops[i].returned]) == [e] && Upstream(e.0, |s.hops|) == i
    ensures DownInv(Next(s, Return(i)))
  {
    hide UnwrapFrame, Upstream, UnwrapAll, Routed;
    var t, r, n := Next(s, Return(i)), s.hops[i].returned, |s.hops|;
    assert t.proxy.calls.log == s.proxy.calls.log + [e];
    forall j | 0 <= j < n
      ensures Routed(t.proxy.calls.log, j, n) == UnwrapAll(t.hops[j].frames[..t.hops[j].returned])
    {
      RoutedStep(s.proxy.calls.log, e, j, n);
      if j == i {
        var frames := s.hops[i].frames;
        assert frames[..r + 1] == frames[..r] + [frames[r]];
        UnwrapAllStep(frames[..r], frames[r]);
      }
    }
  }

  lemma ReturnHop(h: Hop)
    requires HopInv(h) && h.returned < |h.frames|
    ensures HopInv(h.(returned := h.returned + 1))
  {
    hide FeedAll, Frames, C.Inv;
  }

  lemma ReturnKeepsInv(s: System, i: nat)
    requires Inv(s) && Enabled(s, Return(i))
    ensures Inv(Next(s, Return(i)))
  {
    hide PartsInv, LinkInv, HandInv, DownInv, HopInv, Steady, UnwrapFrame, AllEchoEntries, WrapAll, Routed, Upstream;
    assert AllEchoEntries(s.proxy.cut);
    hide UpInv;
    var t := Next(s, Return(i));
    var e := ReturnedEntry(s, i);
    PartsOf(s);
    AllLinked(s);
    SendKeepsSteady(s.proxy, e);
    ReturnHop(s.hops[i]);
    PartsFrame(s, t, i);
    ReturnKeepsDown(s, i, e);
    UpFrame(s, t);
    LinkFrame(s, t);
    HandFrame(s, t);
  }

  // ---- The target ------------------------------------------------------------------------------

  lemma TargetParts(s: System, t: System)
    requires PartsInv(s)
    requires t.proxy == s.proxy && t.hops == s.hops && Steady(t.target)
    ensures PartsInv(t)
  {
    hide Steady, HopInv;
  }

  lemma SameUpAndDown(s: System, t: System)
    requires s.hops != [] && UpInv(s) && DownInv(s)
    requires t.proxy == s.proxy && t.hops == s.hops && t.forwarded == s.forwarded
    ensures UpInv(t) && DownInv(t)
  {
    hide DownInv, AllEchoEntries, WrapAll, Routed;
    UpFrame(s, t);
    DownFrame(s, t);
  }

  lemma ConnectKeepsLink(s: System, i: nat, k: Key)
    requires LinkInv(s) && Enabled(s, Connect(i, k))
    ensures LinkInv(Next(s, Connect(i, k)))
  {
    hide Flatten;
    var t := Next(s, Connect(i, k));
    assert k !in s.target.table;
    assert Flatten<byte>([]) == [] by { EmptyFlatten(); }
    forall j | j in t.link
      ensures Linked(t, j) && Received(t, j) <= t.hops[j].client.pipe.written && Flatten(t.hops[j].chunks) <= Echoed(t, j)
    {
      if j != i {
        assert Linked(s, j);
      }
    }
  }

  lemma EmptyFlatten()
    ensures Flatten<byte>([]) == []
  {
  }

  lemma ConnectKeepsInv(s: System, i: nat, k: Key)
    requires Inv(s) && Enabled(s, Connect(i, k))
    ensures Inv(Next(s, Connect(i, k)))
  {
    hide PartsInv, UpInv, LinkInv, HandInv, DownInv, Steady, HopInv;
    var t := Next(s, Connect(i, k));
    PartsOf(s);
    StepKeepsSteady(s.target, S.Accept(k));
    TargetParts(s, t);
    ConnectKeepsLink(s, i, k);
    SameUpAndDown(s, t);
    HandFrame(s, t);
  }

  lemma CanReceive(s: S.Server, k: Key, chunk: bytes, frames: seq<bytes>)
    requires Steady(s) && k in s.table && s.calls.phase == Idle && 0 < |chunk| <= MAX_CHUNK
    requires SafeFrames(frames) && Flatten(s.table[k].chunks) + chunk <= Flatten(frames)
    ensures Allowed(s, S.Receive(k, chunk))
  {
    hide Steady, Drain, Greedy, FeedAll, Flatten, Frames, IsFrame;
    WholeStreams(s, k);
    ReceiveOfPrefix(s.table[k].chunks, chunk, frames);
  }

  lemma TargetCanReceive(s: System, i: nat, k: Key, chunk: bytes)
    requires Inv(s) && Enabled(s, TargetReceive(i, chunk)) && i in s.link && s.link[i] == k
    ensures Allowed(s.target, S.Receive(k, chunk))
  {
    hide PartsInv, LinkInv, HandInv, DownInv, SafeFrames, Flatten, Sent, Steady, Allowed, HopInv;
    assert s.forwarded <= |s.proxy.cut|;
    hide UpInv;
    UpstreamWrites(s, i);
    OutboundIsEcho(s, i);
    PartsOf(s);
    CanReceive(s.target, k, chunk, Sent(s, i));
  }

  lemma TargetReceiveKeepsLink(s: System, i: nat, chunk: bytes)
    requires LinkInv(s) && Enabled(s, TargetReceive(i, chunk))
    ensures LinkInv(Next(s, TargetReceive(i, chunk)))
  {
    hide Flatten, Drain, Frames;
    var t, k := Next(s, TargetReceive(i, chunk)), s.link[i];
    FlattenSingle(s.target.table[k].chunks, chunk);
    forall j | j in t.link
      ensures Linked(t, j) && Received(t, j) <= t.hops[j].client.pipe.written && Flatten(t.hops[j].chunks) <= Echoed(t, j)
    {
      assert Linked(s, j);
    }
  }

  lemma TargetReceiveKeepsInv(s: System, i: nat, chunk: bytes)
    requires Inv(s) && Enabled(s, TargetReceive(i, chunk))
    ensures Inv(Next(s, TargetReceive(i, chunk)))
  {
    hide PartsInv, UpInv, LinkInv, HandInv, DownInv, Steady, HopInv, Drain, Frames, Allowed, Flatten, S.Enabled;
    var t, a := Next(s, TargetReceive(i, chunk)), S.Receive(s.link[i], chunk);
    PartsOf(s);
    TargetCanReceive(s, i, s.link[i], chunk);
    StepKeepsSteady(s.target, a);
    StepGrows(s.target, a);
    TargetParts(s, t);
    TargetReceiveKeepsLink(s, i, chunk);
    SameUpAndDown(s, t);
    HandFrame(s, t);
  }

  lemma PipeOf(s: S.Server, k: Key)
    requires Steady(s) && k in s.table
    ensures PipeInv(s.table[k].pipe)
  {
    assert S.ConnSends(s, k);
  }

  lemma ServerStepConn(s: S.Server, a: S.Action, k: Key)
    requires k in s.table && PipeInv(s.table[k].pipe)
    requires Allowed(s, a) && !a.Accept? && !a.Receive?
    ensures k in S.Next(s, a).table
    ensures var c, d := s.table[k], S.Next(s, a).table[k];
      d.chunks == c.chunks && c.pipe.written <= d.pipe.written
  {
    if a.WriteReady? && a.k == k {
      WriteStream(s.table[k].pipe, a.n);
    }
  }

  lemma TargetKeepsLink(s: System, b: S.Action)
    requires PartsInv(s) && LinkInv(s) && Enabled(s, Target(b))
    ensures LinkInv(Next(s, Target(b)))
  {
    hide PartsInv, LinkInv, Allowed, S.Next, Flatten, Steady, HopInv;
    var t := Next(s, Target(b));
    PartsOf(s);
    AllLinked(s);
    forall i | i in s.link ensures LinkGrows(s, t, i) {
      PipeOf(s.target, s.link[i]);
      ServerStepConn(s.target, b, s.link[i]);
    }
    LinkFrame(s, t);
  }

  lemma TargetKeepsInv(s: System, b: S.Action)
    requires Inv(s) && Enabled(s, Target(b))
    ensures Inv(Next(s, Target(b)))
  {
    hide PartsInv, UpInv, LinkInv, HandInv, DownInv, Steady, HopInv, Allowed, S.Next;
    var t := Next(s, Target(b));
    PartsOf(s);
    StepKeepsSteady(s.target, b);
    StepGrows(s.target, b);
    TargetParts(s, t);
    TargetKeepsLink(s, b);
    SameUpAndDown(s, t);
    HandFrame(s, t);
  }

  // ---- The target's handler and worker ---------------------------------------------------------

  lemma KnownFrame(s: S.Server, i: nat)
    requires Steady(s) && i < |s.cut|
    ensures s.cut[i].0 in s.table
  {
  }

  /** A send by the handler leaves the connections and the frames as they are. */
  lemma TargetSendKeeps(s: System, t: System, e: Entry)
    requires PartsInv(s) && UpInv(s) && LinkInv(s) && DownInv(s) && e.0 in s.target.table
    requires t.target == SendTo(s.target, e) && t.link == s.link
    requires t.proxy == s.proxy && t.hops == s.hops && t.forwarded == s.forwarded
    ensures PartsInv(t) && UpInv(t) && LinkInv(t) && DownInv(t)
  {
    hide PartsInv, UpInv, LinkInv, DownInv, Steady, HopInv, Flatten;
    PartsOf(s);
    AllLinked(s);
    SendKeepsSteady(s.target, e);
    TargetParts(s, t);
    LinkFrame(s, t);
    SameUpAndDown(s, t);
  }

  lemma HandleKeepsHand(s: System)
    requires HandInv(s) && Enabled(s, Handle)
    ensures HandInv(Next(s, Handle))
  {
    var e, h, n := s.target.cut[s.handed], s.handed, |s.pool.threads|;
    assert s.target.cut[..h + 1] == s.target.cut[..h] + [e];
    if n > 0 {
      hide W.PoolInv, W.Alive, W.Next, W.Done;
      W.DispatchEffect(s.pool, e, n);
    }
  }

  lemma HandleKeepsInv(s: System)
    requires Inv(s) && Enabled(s, Handle)
    ensures Inv(Next(s, Handle))
  {
    hide PartsInv, UpInv, LinkInv, HandInv, DownInv, Steady, HopInv;
    var t := Next(s, Handle);
    PartsOf(s);
    HandleKeepsHand(s);
    if s.pool.threads != [] {
      AllLinked(s);
      TargetParts(s, t);
      LinkFrame(s, t);
      SameUpAndDown(s, t);
    } else {
      KnownFrame(s.target, s.handed);
      TargetSendKeeps(s, t, s.target.cut[s.handed]);
    }
  }

  /** A packet in a worker's hand or queue is one of the target's frames. */
  lemma HeldIsKnown(s: System, i: nat, e: Entry)
    requires HandInv(s) && Steady(s.target)
    requires i < |s.pool.threads| && (e in s.pool.threads[i].hand || e in s.pool.threads[i].queue)
    ensures e in s.target.cut[..s.handed] && e.0 in s.target.table
  {
    hide HandInv, Steady;
    EchoedOrHeld(s);
    assert s.handed <= |s.target.cut| by { HandedBound(s); }
    W.HeldBy(s.pool.threads, i, |s.pool.threads|);
    var t := s.pool.threads[i];
    assert e in t.hand + t.queue;
    assert e in multiset(t.hand + t.queue);
    assert e in multiset(s.target.cut[..s.handed]);
    var j :| 0 <= j < s.handed && s.target.cut[j] == e;
    KnownFrame(s.target, j);
  }

  lemma HandedBound(s: System)
    requires HandInv(s)
    ensures s.handed <= |s.target.cut|
  {
  }

  lemma WorkKeepsHand(s: System, i: nat)
    requires HandInv(s) && Enabled(s, Work(i))
    ensures HandInv(Next(s, Work(i)))
  {
    hide W.PoolInv, W.Alive, W.Next, W.Done;
    W.RunEffect(s.pool, i, |s.pool.threads|);
  }

  lemma WorkKeepsInv(s: System, i: nat)
    requires Inv(s) && Enabled(s, Work(i))
    ensures Inv(Next(s, Work(i)))
  {
    hide PartsInv, UpInv, LinkInv, HandInv, DownInv, Steady, HopInv, W.Step;
    var t, w := Next(s, Work(i)), s.pool.threads[i];
    PartsOf(s);
    WorkKeepsHand(s, i);
    if w.pc == W.Handling && w.hand != [] {
      HeldIsKnown(s, i, w.hand[0]);
      TargetSendKeeps(s, t, w.hand[0]);
    } else {
      AllLinked(s);
      TargetParts(s, t);
      LinkFrame(s, t);
      SameUpAndDown(s, t);
    }
  }

  // ---- Whole runs ------------------------------------------------------------------------------

  lemma NextKeepsInv(s: System, a: Action)
    requires Inv(s) && Enabled(s, a)
    ensures Inv(Next(s, a))
  {
    hide Inv, Enabled, Next;
    match a
    case Proxy(b) => ProxyKeepsInv(s, b);
    case Forward => ForwardKeepsInv(s);
    case HopStep(i, b) => HopStepKeepsInv(s, i, b);
    case HopReceive(i, chunk) => HopReceiveKeepsInv(s, i, chunk);
    case Return(i) => ReturnKeepsInv(s, i);
    case Connect(i, k) => ConnectKeepsInv(s, i, k);
    case TargetReceive(i, chunk) => TargetReceiveKeepsInv(s, i, chunk);
    case Target(b) => TargetKeepsInv(s, b);
    case Handle => HandleKeepsInv(s);
    case Work(i) => WorkKeepsInv(s, i);
  }

  lemma {:induction false} RunKeepsInv(s: System, run: seq<Action>, t: System)
    requires Inv(s) && Follows(s, run, t)
    ensures Inv(t)
    decreases |run|
  {
    hide Inv, Enabled, Next;
    if run != [] {
      NextKeepsInv(s, run[0]);
      RunKeepsInv(Next(s, run[0]), run[1..], t);
    }
  }
}
