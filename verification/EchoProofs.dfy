/** The invariant of the proxied echo system, and what follows from it end to end. */
module EchoProofs {
  import opened Wire
  import opened SocketKey
  import opened Framing
  import opened Chunking
  import opened KeyedLog
  import opened SendPath
  import opened ProxyFrames
  import opened SteadyServer
  import opened EchoSystem
  import S = ServerSteps
  import C = ClientSteps
  import W = WorkerPool

  // ---- Hop by hop: each stage holds some of what the previous one sent ---------------------------

  /** The wrapped frames given to upstream i. */
  ghost function Sent(s: System, i: nat): seq<bytes>
    requires s.hops != [] && s.forwarded <= |s.proxy.cut|
  {
    WrapAll(Outbound(s, i))
  }

  lemma {:induction false} RoutedEcho(log: seq<Entry>, i: nat, concurrency: nat)
    requires concurrency > 0 && AllEchoEntries(log)
    ensures AllEchoEntries(Routed(log, i, concurrency))
  {
    hide EchoFrame;
    if log != [] {
      RoutedEcho(log[..|log| - 1], i, concurrency);
    }
  }

  lemma OutboundIsEcho(s: System, i: nat)
    requires s.hops != [] && UpInv(s)
    ensures AllEchoEntries(Outbound(s, i)) && AllForwardable(Outbound(s, i)) && SafeFrames(Sent(s, i))
  {
    RoutedEcho(s.proxy.cut[..s.forwarded], i, |s.hops|);
    var log := Outbound(s, i);
    forall j | 0 <= j < |log|
      ensures Forwardable(log[j].1) && IsFrame(WrapAll(log)[j]) && |WrapAll(log)[j]| <= MAX_SAFE_LENGTH + HEADER
    {
      UnwrapWrapFrame(log[j]);
    }
  }

  lemma UpstreamWrites(s: System, i: nat)
    requires PartsInv(s) && UpInv(s) && i < |s.hops|
    ensures s.hops[i].client.pipe.written <= Flatten(Sent(s, i))
  {
    assert HopInv(s.hops[i]);
    C.SendStream(s.hops[i].client);
  }

  lemma TargetCuts(s: System, i: nat)
    requires PartsInv(s) && UpInv(s) && LinkInv(s) && i in s.link
    ensures Of(s.target.cut, s.link[i]) <= Sent(s, i)
    ensures Received(s, i) == Flatten(Sent(s, i)) ==> Of(s.target.cut, s.link[i]) == Sent(s, i)
  {
    UpstreamWrites(s, i);
    OutboundIsEcho(s, i);
    WholeStreams(s.target, s.link[i]);
    FeedAllOfPrefix(s.target.table[s.link[i]].chunks, Sent(s, i));
  }

  /** With no worker or one worker the target echoes in order. */
  predicate Ordered(s: System) { |s.pool.threads| <= 1 }

  /** Every frame handed on at the target has been echoed or is held by a worker. */
  lemma EchoedOrHeld(s: System)
    requires HandInv(s)
    ensures multiset(s.target.calls.log) + W.Held(s.pool.threads, |s.pool.threads|) == multiset(s.target.cut[..s.handed])
    ensures Ordered(s) ==> s.target.calls.log <= s.target.cut[..s.handed]
  {
    hide W.PoolInv;
    var n := |s.pool.threads|;
    if n > 0 {
      W.DispatchedIsDoneOrHeld(s.pool, n);
    }
    if n == 1 {
      OneWorker(s.pool);
    }
  }

  lemma OneWorker(p: W.Pool<Entry>)
    requires W.PoolInv(p, 1)
    ensures p.threads[0].handled <= p.log
  {
    var t := p.threads[0];
    W.ShareOfOne(p.log);
    assert t.handled + t.hand + t.queue == t.handled + (t.hand + t.queue);
  }

  lemma TargetSends(s: System, k: Key)
    requires HandInv(s)
    ensures multiset(Of(s.target.calls.log, k)) <= multiset(Of(s.target.cut, k))
    ensures Ordered(s) ==> Of(s.target.calls.log, k) <= Of(s.target.cut, k)
  {
    EchoedOrHeld(s);
    hide HandInv, Of;
    var log, cut := s.target.calls.log, s.target.cut;
    assert multiset(log) <= multiset(cut[..s.handed]);
    PrefixSubset(cut[..s.handed], cut);
    OfSubset(log, cut, k);
    if Ordered(s) {
      OfPrefix(log, cut, k);
    }
  }

  lemma SafeSubset(a: seq<bytes>, b: seq<bytes>)
    requires SafeFrames(b) && multiset(a) <= multiset(b)
    ensures SafeFrames(a)
  {
    hide IsFrame;
    forall i | 0 <= i < |a| ensures IsFrame(a[i]) && |a[i]| <= MAX_SAFE_LENGTH + HEADER {
      var j := SubsetMember(a, b, i);
    }
  }

  /** The frames the target has echoed on the connection of upstream i. */
  ghost function EchoedFrames(s: System, i: nat): seq<bytes>
    requires i in s.link
  {
    Of(s.target.calls.log, s.link[i])
  }

  lemma LinkedHopFrames(s: System, i: nat)
    requires PartsInv(s) && UpInv(s) && LinkInv(s) && HandInv(s) && i in s.link
    ensures i < |s.hops|
    ensures multiset(EchoedFrames(s, i)) <= multiset(Sent(s, i)) && SafeFrames(EchoedFrames(s, i))
    ensures Ordered(s) ==> EchoedFrames(s, i) <= Sent(s, i)
    ensures s.hops[i].frames <= EchoedFrames(s, i)
    ensures Flatten(s.hops[i].chunks) == Flatten(EchoedFrames(s, i)) ==> s.hops[i].frames == EchoedFrames(s, i)
  {
    var k := s.link[i];
    TargetCuts(s, i);
    TargetSends(s, k);
    OutboundIsEcho(s, i);
    WrittenIsPrefix(s.target, k);
    assert HopInv(s.hops[i]);
    hide Steady, UpInv, HandInv, SafeFrames, Sent, Of;
    PrefixSubset(Of(s.target.cut, k), Sent(s, i));
    SafeSubset(EchoedFrames(s, i), Sent(s, i));
    FeedAllOfPrefix(s.hops[i].chunks, EchoedFrames(s, i));
  }

  lemma HopFrames(s: System, i: nat)
    requires PartsInv(s) && UpInv(s) && LinkInv(s) && HandInv(s) && i < |s.hops|
    ensures multiset(s.hops[i].frames) <= multiset(Sent(s, i))
    ensures Ordered(s) ==> s.hops[i].frames <= Sent(s, i)
  {
    if i in s.link {
      LinkedHopFrames(s, i);
      hide PartsInv, UpInv, LinkInv, HandInv, Sent, EchoedFrames;
      PrefixSubset(s.hops[i].frames, EchoedFrames(s, i));
    } else {
      assert HopInv(s.hops[i]);
      assert FeedAll([]) == EMPTY;
      hide Steady, Sent;
    }
  }

  lemma UnwrapPrefix(log: seq<Entry>, frames: seq<bytes>, n: nat)
    requires AllForwardable(log) && frames <= WrapAll(log) && n <= |frames|
    ensures n <= |log| && UnwrapAll(frames[..n]) == log[..n]
  {
    assert frames[..n] == WrapAll(log[..n]);
    UnwrapAllWrapAll(log[..n]);
  }

  lemma Unwrapped(s: System, i: nat)
    requires s.hops != [] && UpInv(s) && DownInv(s) && i < |s.hops|
    ensures s.forwarded <= |s.proxy.cut| && s.hops[i].returned <= |s.hops[i].frames|
    ensures Routed(s.proxy.calls.log, i, |s.hops|) == UnwrapAll(s.hops[i].frames[..s.hops[i].returned])
  {
    hide Routed, UnwrapAll, AllEchoEntries;
  }

  /** What went back to clients of upstream i came from them, each frame at most as often; in order if the target
      echoes in order. */
  lemma Returned(s: System, i: nat)
    requires Inv(s) && i < |s.hops|
    ensures multiset(Routed(s.proxy.calls.log, i, |s.hops|)) <= multiset(Outbound(s, i))
    ensures Ordered(s) ==> Routed(s.proxy.calls.log, i, |s.hops|) <= Outbound(s, i)
  {
    hide UpInv, DownInv, PartsInv, LinkInv, HandInv, AllForwardable, AllEchoEntries, SafeFrames, Routed, Outbound, UnwrapAll;
    HopFrames(s, i);
    OutboundIsEcho(s, i);
    Unwrapped(s, i);
    var h := s.hops[i];
    PrefixSubset(h.frames[..h.returned], h.frames);
    UnwrapSubset(h.frames[..h.returned], Outbound(s, i));
    if Ordered(s) {
      UnwrapPrefix(Outbound(s, i), h.frames, h.returned);
    }
  }

  lemma {:induction false} RoutedPrefix(a: seq<Entry>, b: seq<Entry>, i: nat, concurrency: nat)
    requires concurrency > 0 && a <= b
    ensures Routed(a, i, concurrency) <= Routed(b, i, concurrency)
  {
    if |a| < |b| {
      var n := |b| - 1;
      RoutedPrefix(a, b[..n], i, concurrency);
    } else {
      assert a == b;
    }
  }

  // ---- Which upstream ----------------------------------------------------------------------------

  lemma CutIsKnown(s: S.Server, i: nat)
    requires Steady(s) && i < |s.cut|
    ensures s.cut[i].0 in s.table && s.cut[i].0.socket >= 0
  {
  }

  /** Forwarding a frame sends its wrapped form on one upstream, the one that the client's descriptor modulo the number
      of upstreams names, and does nothing else. */
  lemma ForwardEffect(s: System)
    requires Inv(s) && Enabled(s, Forward)
    ensures var t, e := Next(s, Forward), s.proxy.cut[s.forwarded];
      && t == s.(forwarded := s.forwarded + 1, hops := t.hops) && |t.hops| == |s.hops|
      && forall i | 0 <= i < |s.hops| ::
           if e.0.socket % |s.hops| == i
           then t.hops[i].client.calls.log == s.hops[i].client.calls.log + [WrapFrame(e)]
           else t.hops[i] == s.hops[i]
  {
    hide UpInv, LinkInv, HandInv, DownInv, Steady, HopInv, WrapFrame;
    CutIsKnown(s.proxy, s.forwarded);
  }

  lemma {:induction false} RoutedFrom(log: seq<Entry>, i: nat, n: nat, j: nat) returns (m: nat)
    requires n > 0 && j < |Routed(log, i, n)|
    ensures m < |log| && Routed(log, i, n)[j] == log[m] && Upstream(log[m].0, n) == i
  {
    hide Upstream;
    var last := |log| - 1;
    if j < |Routed(log[..last], i, n)| {
      m := RoutedFrom(log[..last], i, n, j);
    } else {
      m := last;
    }
  }

  /** In every reachable state, whatever has been sent on upstream i is a wrapped frame of a client whose descriptor
      modulo the number of upstreams is i. */
  lemma SentByDescriptor(s: System, i: nat, j: nat) returns (m: nat)
    requires Inv(s) && i < |s.hops| && j < |s.hops[i].client.calls.log|
    ensures m < s.forwarded <= |s.proxy.cut|
    ensures s.hops[i].client.calls.log[j] == WrapFrame(s.proxy.cut[m]) && s.proxy.cut[m].0.socket % |s.hops| == i
  {
    hide LinkInv, HandInv, DownInv, Steady, HopInv, WrapFrame, Routed;
    m := RoutedFrom(s.proxy.cut[..s.forwarded], i, |s.hops|, j);
    CutIsKnown(s.proxy, m);
  }

  /** The environment's choices: whatever it may do to the proxy's server, once that has forwarded what it cut, and
      to the target for an upstream that has not connected yet. */
  lemma ServersAreFree(s: System, i: nat, k: Key, chunk: bytes)
    requires i < |s.hops|
    ensures ProxyIdle(s) && Allowed(s.proxy, S.Accept(k)) ==> Enabled(s, Proxy(S.Accept(k)))
    ensures ProxyIdle(s) && Allowed(s.proxy, S.Receive(k, chunk)) ==>
              (AllEcho(Frames(Drain(S.Content(s.proxy, k) + chunk).segments)) ==> Enabled(s, Proxy(S.Receive(k, chunk))))
    ensures i !in s.link && TargetIdle(s) && S.Enabled(s.target, S.Accept(k)) ==> Enabled(s, Connect(i, k))
  {
    hide Allowed, S.Enabled, Drain, Frames, AllEcho;
  }

  /** Any step of an upstream client's loop thread but those left out: sends of other threads, lost connections, full
      queues; likewise of the target's loop; and any step of a worker that has not exited. */
  lemma ThreadsAreFree(s: System, i: nat, b: C.Action, a: S.Action)
    ensures i < |s.hops| && s.hops[i].returned == |s.hops[i].frames| && C.Enabled(s.hops[i].client, b) ==>
              b.Send? || b.Reconnect? || (b.TakeAsync? && Full(s.hops[i].client.pipe)) || Enabled(s, HopStep(i, b))
    ensures TargetIdle(s) && Allowed(s.target, a) ==> a.Accept? || a.Receive? || Enabled(s, Target(a))
    ensures ProxyIdle(s) && Allowed(s.proxy, a) ==> a.Receive? || Enabled(s, Proxy(a))
    ensures i < |s.pool.threads| && s.pool.threads[i].pc != W.Exited ==> Enabled(s, Work(i))
  {
    hide C.Enabled, Allowed, Full;
  }

  /** And any chunk of 1 to 4096 bytes of what is in flight on a connection, once the thread that reads it is free. */
  lemma LinksAreFree(s: System, i: nat, chunk: bytes)
    requires Linked(s, i) && 0 < |chunk| <= 4096
    requires Received(s, i) + chunk <= s.hops[i].client.pipe.written
    ensures TargetIdle(s) && s.target.calls.phase == Idle ==> Enabled(s, TargetReceive(i, chunk))
  {
    hide Flatten;
  }

  lemma LinksAreFreeBack(s: System, i: nat, chunk: bytes)
    requires Linked(s, i) && 0 < |chunk| <= 4096 && Flatten(s.hops[i].chunks) + chunk <= Echoed(s, i)
    ensures HopIdle(s.hops[i]) ==> Enabled(s, HopReceive(i, chunk))
  {
    hide Flatten;
  }

  // ---- End to end ------------------------------------------------------------------------------

  lemma SentBack(s: System, k: Key)
    requires Inv(s)
    ensures multiset(Of(s.proxy.calls.log, k)) <= multiset(Of(s.proxy.cut, k))
    ensures Ordered(s) ==> Of(s.proxy.calls.log, k) <= Of(s.proxy.cut, k)
  {
    var i, n := Upstream(k, |s.hops|), |s.hops|;
    Returned(s, i);
    assert s.forwarded <= |s.proxy.cut|;
    hide Inv, Routed, Of;
    var log, cut := s.proxy.calls.log, s.proxy.cut;
    RoutedPrefix(cut[..s.forwarded], cut, i, n);
    PrefixSubset(Routed(cut[..s.forwarded], i, n), Routed(cut, i, n));
    OfRouted(log, k, n);
    OfRouted(cut, k, n);
    OfSubset(Routed(log, i, n), Routed(cut, i, n), k);
    if Ordered(s) {
      OfPrefix(Routed(log, i, n), Routed(cut, i, n), k);
    }
  }

  /** The frames the proxy has cut from what it received from client k. */
  ghost function ClientFrames(s: System, k: Key): seq<bytes>
    requires k in s.proxy.table
  {
    Frames(FeedAll(s.proxy.table[k].chunks).segments)
  }

  /** End-to-end echo: in every reachable state, what has been written back to a client is whole frames and at most
      part of one more, all of them frames that the proxy cut from that client's own bytes, none more often than
      it was cut; and with at most one worker at the target they come in the order they were cut. */
  lemma EchoSafety(s: System, k: Key) returns (echoed: seq<bytes>)
    requires Inv(s) && k in s.proxy.table
    ensures s.proxy.table[k].pipe.written <= Flatten(echoed)
    ensures multiset(echoed) <= multiset(ClientFrames(s, k))
    ensures Ordered(s) ==> echoed <= ClientFrames(s, k) && s.proxy.table[k].pipe.written <= Flatten(ClientFrames(s, k))
  {
    echoed := Of(s.proxy.calls.log, k);
    SentBack(s, k);
    WrittenIsPrefix(s.proxy, k);
    WholeStreams(s.proxy, k);
    if Ordered(s) {
      FlattenPrefix(echoed, Of(s.proxy.cut, k));
    }
    hide Inv, Flatten;
  }

  /** For a client that sends only positive lengths, the frames are among the complete ones it has sent, whatever more
      it has sent that has not arrived yet. */
  lemma EchoOfSentStream(s: System, k: Key, sent: bytes) returns (echoed: seq<bytes>)
    requires Inv(s) && k in s.proxy.table
    requires Flatten(s.proxy.table[k].chunks) <= sent && Clean(Greedy(sent))
    ensures s.proxy.table[k].pipe.written <= Flatten(echoed)
    ensures multiset(echoed) <= multiset(Frames(Greedy(sent).segments))
    ensures Ordered(s) ==> s.proxy.table[k].pipe.written <= Flatten(Frames(Greedy(sent).segments))
  {
    echoed := EchoSafety(s, k);
    hide Inv, Flatten, Greedy;
    FramesOnlyDelayed(s.proxy.table[k].chunks, sent);
    PrefixSubset(ClientFrames(s, k), Frames(Greedy(sent).segments));
    FlattenPrefix(ClientFrames(s, k), Frames(Greedy(sent).segments));
  }
}
