/** How much the proxied echo system can hold: no queue is ever longer than the number of frames under way on its
    path, so as long as those are at most a million no write queue is full. */
module EchoBounds {
  import opened Wire
  import opened SocketKey
  import opened Framing
  import opened Chunking
  import opened KeyedLog
  import opened SendPath
  import opened ProxyFrames
  import opened SteadyServer
  import opened EchoSystem
  import opened EchoProofs
  import opened EchoInvariant
  import opened EchoCompletion
  import opened DeliveryMeasure
  import S = ServerSteps
  import C = ClientSteps
  import W = WorkerPool

  // ---- Only the proxy's upstream clients connect to the target -----------------------------------

  ghost predicate Matched(s: System) {
    forall k | k in s.target.table :: IsLink(s, k)
  }

  ghost predicate IsLink(s: System, k: Key) {
    exists i | i in s.link :: s.link[i] == k
  }

  lemma InitMatched(n: nat, workers: nat)
    ensures Matched(Init(n, workers))
  {
  }

  lemma NextKeepsMatched(s: System, a: Action)
    requires Inv(s) && Matched(s) && Enabled(s, a)
    ensures Matched(Next(s, a))
  {
    hide Inv, Flatten, Drain, Frames, UnwrapFrame, WrapFrame, W.Step, Allowed, S.Next, Full;
    var t := Next(s, a);
    TargetKeys(s, a);
    forall k | k in t.target.table ensures IsLink(t, k) {
      if a.Connect? && k == a.k {
        assert t.link[a.i] == k;
      } else {
        assert IsLink(s, k);
        var i :| i in s.link && s.link[i] == k;
        assert t.link[i] == k;
      }
    }
  }

  lemma TargetKeys(s: System, a: Action)
    requires Enabled(s, a)
    ensures Next(s, a).target.table.Keys == s.target.table.Keys + if a.Connect? then {a.k} else {}
    ensures Next(s, a).link == if a.Connect? then s.link[a.i := a.k] else s.link
    ensures a.Connect? ==> a.i !in s.link
  {
    hide Flatten, Drain, Frames, UnwrapFrame, WrapFrame, W.Step;
    if a.Target? {
      StepGrows(s.target, a.a);
    }
  }

  // ---- Frames in the whole system ----------------------------------------------------------------

  function RoutedCount(log: seq<Entry>, n: nat): nat -> nat
    requires n > 0
  {
    (i: nat) => |Routed(log, i, n)|
  }

  /** Every entry is routed to exactly one upstream. */
  lemma {:induction false} RoutedPartition(log: seq<Entry>, n: nat)
    requires n > 0
    ensures Sum(RoutedCount(log, n), n) == |log|
  {
    if log == [] {
      SumZero(RoutedCount(log, n), n);
    } else {
      var init, e := log[..|log| - 1], log[|log| - 1];
      RoutedPartition(init, n);
      SumOneMore(RoutedCount(init, n), RoutedCount(log, n), n, Upstream(e.0, n));
    }
  }

  function LinkCount(log: seq<Entry>, link: map<nat, Key>): nat -> nat {
    (i: nat) => if i in link then |Of(log, link[i])| else 0
  }

  ghost predicate IsFrom(link: map<nat, Key>, n: nat, k: Key) {
    exists i | i in link :: i < n && link[i] == k
  }

  ghost predicate AllFrom(log: seq<Entry>, link: map<nat, Key>, n: nat) {
    forall j | 0 <= j < |log| :: IsFrom(link, n, log[j].0)
  }

  /** Entries all of whose clients are linked: each is counted at some upstream. */
  lemma {:induction false} LinkCover(log: seq<Entry>, link: map<nat, Key>, n: nat)
    requires AllFrom(log, link, n) && forall i, j | i in link && j in link :: link[i] == link[j] ==> i == j
    ensures |log| <= Sum(LinkCount(log, link), n)
  {
    if log != [] {
      assert IsFrom(link, n, log[0].0);
      var i :| i in link && i < n && link[i] == log[0].0;
      LinkCover(log[1..], link, n);
      SumOneMore(LinkCount(log[1..], link), LinkCount(log, link), n, i);
    }
  }

  /** The target never has more frames than the proxy has forwarded. */
  lemma TargetHoldsForwarded(s: System)
    requires Inv(s) && Matched(s)
    ensures |s.target.cut| <= s.forwarded <= |s.proxy.cut|
  {
    hide Routed, Of, FeedAll, Frames, Flatten, HandInv, DownInv, HopInv;
    var n, log := |s.hops|, s.proxy.cut[..s.forwarded];
    AllFromLinks(s);
    LinkCover(s.target.cut, s.link, n);
    forall i | 0 <= i < n ensures LinkCount(s.target.cut, s.link)(i) <= RoutedCount(log, n)(i) {
      if i in s.link {
        TargetCuts(s, i);
      }
    }
    SumGrows(LinkCount(s.target.cut, s.link), RoutedCount(log, n), n);
    RoutedPartition(log, n);
  }

  lemma AllFromLinks(s: System)
    requires Inv(s) && Matched(s)
    ensures AllFrom(s.target.cut, s.link, |s.hops|)
  {
    hide UpInv, HandInv, DownInv, HopInv, Received, Echoed;
    forall j | 0 <= j < |s.target.cut|
      ensures IsFrom(s.link, |s.hops|, s.target.cut[j].0)
    {
      KnownFrame(s.target, j);
      assert IsLink(s, s.target.cut[j].0);
      var i :| i in s.link && s.link[i] == s.target.cut[j].0;
      assert Linked(s, i);
    }
  }

  /** A worker never holds more than the frames the proxy has cut and the target has not echoed. */
  lemma WorkerBound(s: System, i: nat)
    requires Inv(s) && Matched(s) && i < |s.pool.threads|
    ensures |s.pool.threads[i].queue| <= |s.proxy.cut| - |s.target.calls.log|
  {
    TargetHoldsForwarded(s);
    hide PartsInv, UpInv, LinkInv, DownInv, HandInv;
    EchoedOrHeld(s);
    HandedBound(s);
    var n, t := |s.pool.threads|, s.pool.threads[i];
    W.HeldBy(s.pool.threads, i, n);
    SubsetSize(multiset(t.hand + t.queue), W.Held(s.pool.threads, n));
    assert |multiset(t.hand + t.queue)| == |t.hand + t.queue|;
    assert |multiset(s.target.cut[..s.handed])| == s.handed;
    assert |multiset(s.target.calls.log)| == |s.target.calls.log|;
  }

  lemma SubsetSize<T>(a: multiset<T>, b: multiset<T>)
    requires a <= b
    ensures |a| <= |b|
  {
    assert b == a + (b - a);
  }

  // ---- Queues ------------------------------------------------------------------------------------

  /** The frames on their way along upstream i, forwarded and not yet returned. */
  ghost function UnderWay(s: System, i: nat): int
    requires s.hops != [] && i < |s.hops| && s.forwarded <= |s.proxy.cut|
  {
    |Outbound(s, i)| - s.hops[i].returned
  }

  /** The frames of client k that have been cut and not yet written back as a whole. */
  ghost function Owed(s: System, k: Key): int
    requires k in s.proxy.table
  {
    |Of(s.proxy.cut, k)| - |Frames(Greedy(s.proxy.table[k].pipe.written).segments)|
  }

  lemma SafeNotEmpty(frames: seq<bytes>)
    requires SafeFrames(frames)
    ensures forall i | 0 <= i < |frames| :: frames[i] != []
  {
    forall i | 0 <= i < |frames| ensures frames[i] != [] {
      assert IsFrame(frames[i]);
    }
  }

  /** Whole frames written leave the queue. */
  lemma ServerQueueBound(s: S.Server, k: Key, r: nat)
    requires Steady(s) && k in s.table && SafeFrames(Of(s.calls.log, k))
    requires r <= |Of(s.calls.log, k)| && |Flatten(Of(s.calls.log, k)[..r])| <= |s.table[k].pipe.written|
    ensures |s.table[k].pipe.queue| <= |Of(s.calls.log, k)| - r
  {
    hide Steady, Of, SafeFrames, Flatten;
    QueueTrails(s, k);
    SafeNotEmpty(Of(s.calls.log, k));
    WrittenLeaves(s.table[k].pipe, Of(s.calls.done, k), Of(s.calls.log, k), r);
  }

  lemma FramesFitPrefix(chunks: seq<bytes>, written: bytes, log: seq<bytes>)
    requires Flatten(chunks) <= written && Frames(FeedAll(chunks).segments) <= log
    ensures var r := |Frames(FeedAll(chunks).segments)|; r <= |log| && |Flatten(log[..r])| <= |written|
  {
    FramesFit(chunks);
    var frames := Frames(FeedAll(chunks).segments);
    assert log[..|frames|] == frames;
  }

  lemma TargetQueueBound(s: System, i: nat)
    requires Inv(s) && i in s.link
    ensures i < |s.hops| && s.link[i] in s.target.table && s.forwarded <= |s.proxy.cut|
    ensures |s.target.table[s.link[i]].pipe.queue| <= UnderWay(s, i)
  {
    LinkedHopFrames(s, i);
    var k, h := s.link[i], s.hops[i];
    assert Linked(s, i) && HopInv(h);
    hide Steady, Of, UpInv, HandInv, DownInv, SafeFrames, Frames, FeedAll, Flatten, Routed;
    assert s.forwarded <= |s.proxy.cut| by { ForwardedBound(s); }
    FramesFitPrefix(h.chunks, Echoed(s, i), EchoedFrames(s, i));
    ServerQueueBound(s.target, k, |h.frames|);
    SubsetLength(EchoedFrames(s, i), Sent(s, i));
  }

  lemma ForwardedBound(s: System)
    requires Inv(s)
    ensures s.forwarded <= |s.proxy.cut|
  {
  }

  lemma ClientQueueBound(s: System, i: nat)
    requires Inv(s) && i < |s.hops|
    ensures s.forwarded <= |s.proxy.cut| && |s.hops[i].client.pipe.queue| <= UnderWay(s, i)
  {
    var c, r := s.hops[i].client, s.hops[i].returned;
    HopClient(s, i);
    OutboundIsEcho(s, i);
    HopReachedTarget(s, i);
    assert HopInv(s.hops[i]);
    hide Inv, Steady, SafeFrames, Frames, FeedAll, Flatten, Routed, HopInv, Trails, PipeInv;
    C.AllAccepted(c.calls.done, c.accepted);
    ClientTrails(c);
    SafeNotEmpty(Sent(s, i));
    WrittenLeaves(c.pipe, c.calls.done, Sent(s, i), r);
  }

  lemma ClientTrails(c: C.Client)
    requires C.Inv(c) && C.Accepted(c.calls.done, c.accepted) == c.calls.done
    ensures PipeInv(c.pipe) && Trails(c.pipe.queue, c.calls.done) && Stream(c.pipe) == Flatten(c.calls.done)
    ensures c.calls.done <= c.calls.log
  {
    StartOfSum(c.calls.done, c.calls.batch, c.calls.functions);
    hide Flatten, Trails;
  }

  /** As many frames as have come back have been written upstream. */
  lemma HopReachedTarget(s: System, i: nat)
    requires Inv(s) && i < |s.hops|
    ensures s.forwarded <= |s.proxy.cut| && s.hops[i].returned <= |Sent(s, i)|
    ensures |Flatten(Sent(s, i)[..s.hops[i].returned])| <= |s.hops[i].client.pipe.written|
  {
    hide HopInv, Steady, Sent, Flatten;
    ForwardedBound(s);
    hide UpInv, DownInv, HandInv;
    PartsOf(s);
    HopReturns(s.hops[i]);
    if i in s.link {
      TargetReached(s, i);
      FewerFrames(Sent(s, i), s.hops[i].returned, |Of(s.target.cut, s.link[i])|);
    } else {
      assert s.hops[i].chunks == [];
      NothingCut(s.hops[i]);
      assert Sent(s, i)[..0] == [];
      EmptyFlatten();
    }
  }

  lemma FewerFrames(frames: seq<bytes>, r: nat, n: nat)
    requires r <= n <= |frames|
    ensures |Flatten(frames[..r])| <= |Flatten(frames[..n])|
  {
    FlattenPrefix(frames[..r], frames[..n]);
  }

  lemma TargetReached(s: System, i: nat)
    requires PartsInv(s) && UpInv(s) && LinkInv(s) && HandInv(s) && i in s.link
    ensures i < |s.hops| && s.forwarded <= |s.proxy.cut|
    ensures var n := |Of(s.target.cut, s.link[i])|;
      |s.hops[i].frames| <= n <= |Sent(s, i)| && |Flatten(Sent(s, i)[..n])| <= |s.hops[i].client.pipe.written|
  {
    var k := s.link[i];
    assert Linked(s, i) && Received(s, i) <= s.hops[i].client.pipe.written;
    LinkedHopFrames(s, i);
    TargetCuts(s, i);
    TargetSends(s, k);
    WholeStreams(s.target, k);
    hide HopInv, UpInv, HandInv, Steady, Of, Flatten, Frames, FeedAll, Sent;
    SubsetLength(EchoedFrames(s, i), Of(s.target.cut, k));
    FramesFitPrefix(s.target.table[k].chunks, s.hops[i].client.pipe.written, Sent(s, i));
  }

  lemma HopReturns(h: Hop)
    requires HopInv(h)
    ensures h.returned <= |h.frames|
  {
  }

  lemma ProxyQueueBound(s: System, k: Key)
    requires Inv(s) && k in s.proxy.table
    ensures |s.proxy.table[k].pipe.queue| <= Owed(s, k)
  {
    hide Of, LinkInv, HandInv, DownInv, Steady, HopInv, Greedy, FeedAll, Flatten, Frames;
    PartsOf(s);
    SentBack(s, k);
    ClientCutsAreSafe(s, k);
    var log, written := Of(s.proxy.calls.log, k), s.proxy.table[k].pipe.written;
    SafeSubset(log, Of(s.proxy.cut, k));
    SubsetLength(log, Of(s.proxy.cut, k));
    WrittenIsPrefix(s.proxy, k);
    WholeFramesWritten(log, written);
    ServerQueueBound(s.proxy, k, |Frames(Greedy(written).segments)|);
  }

  lemma WholeFramesWritten(log: seq<bytes>, written: bytes)
    requires SafeFrames(log) && written <= Flatten(log)
    ensures var r := |Frames(Greedy(written).segments)|; r <= |log| && |Flatten(log[..r])| <= |written|
  {
    GreedyOfPrefix(log, written);
    GreedyAccounts(written);
    var frames := Frames(Greedy(written).segments);
    FramesInImages(Greedy(written).segments);
    assert log[..|frames|] == frames;
  }

  lemma {:induction false} EchoOf(log: seq<Entry>, k: Key)
    requires AllEchoEntries(log)
    ensures SafeFrames(Of(log, k))
  {
    if log != [] {
      assert EchoFrame(log[0].1);
      assert AllEchoEntries(log[1..]);
      EchoOf(log[1..], k);
    }
  }

  lemma ClientCutsAreSafe(s: System, k: Key)
    requires s.hops != [] && UpInv(s)
    ensures SafeFrames(Of(s.proxy.cut, k))
  {
    EchoOf(s.proxy.cut, k);
  }

  ghost predicate Roomy(s: System) {
    && NoneFull(s.proxy) && NoneFull(s.target)
    && forall i | 0 <= i < |s.hops| :: !Full(s.hops[i].client.pipe)
  }

  /** At most a million frames are under way on any one upstream, or owed to any one client. */
  ghost predicate FewUnderWay(s: System)
    requires s.hops != [] && s.forwarded <= |s.proxy.cut|
  {
    && (forall i | 0 <= i < |s.hops| :: UnderWay(s, i) <= 1_000_000)
    && (forall k | k in s.proxy.table :: Owed(s, k) <= 1_000_000)
  }

  /** Then no queue in the system is full, however many frames have passed through it before. */
  lemma NothingFull(s: System)
    requires Inv(s) && Matched(s) && FewUnderWay(s)
    ensures Roomy(s)
  {
    hide Inv, UnderWay, Owed;
    forall k | k in s.proxy.table ensures !Full(s.proxy.table[k].pipe) {
      ProxyQueueBound(s, k);
    }
    forall k | k in s.target.table ensures !Full(s.target.table[k].pipe) {
      assert IsLink(s, k);
      var i :| i in s.link && s.link[i] == k;
      TargetQueueBound(s, i);
    }
    forall i | 0 <= i < |s.hops| ensures !Full(s.hops[i].client.pipe) {
      ClientQueueBound(s, i);
    }
  }
}
