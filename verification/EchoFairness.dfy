/** The proxied echo system comes to rest whenever its threads are scheduled fairly. */
module EchoFairness {
  import opened Wire
  import opened SocketKey
  import opened Framing
  import opened Chunking
  import opened KeyedLog
  import opened SendPath
  import opened ProxyFrames
  import opened SteadyServer
  import opened EchoSystem
  import opened EchoProofs
  import opened EchoInvariant
  import opened EchoCompletion
  import opened EchoBounds
  import opened DeliveryMeasure
  import opened EchoTermination
  import S = ServerSteps
  import C = ClientSteps
  import W = WorkerPool

  // ---- States from which the system can come to rest ---------------------------------------------

  /** At most a million frames, forwarded or not, are yet to come back on any upstream, or are owed to any client. */
  ghost predicate Bounded(s: System)
    requires s.hops != []
  {
    && (forall i | 0 <= i < |s.hops| :: |Routed(s.proxy.cut, i, |s.hops|)| - s.hops[i].returned <= 1_000_000)
    && (forall k | k in s.proxy.table :: Owed(s, k) <= 1_000_000)
  }

  lemma BoundedIsFew(s: System)
    requires s.hops != [] && s.forwarded <= |s.proxy.cut| && Bounded(s)
    ensures FewUnderWay(s)
  {
    hide Routed, Owed;
    forall i | 0 <= i < |s.hops| ensures UnderWay(s, i) <= 1_000_000 {
      RoutedPrefix(s.proxy.cut[..s.forwarded], s.proxy.cut, i, |s.hops|);
    }
  }

  /** What has come back and what has been written to the clients only grows, and new clients are owed nothing. */
  ghost predicate Advances(s: System, t: System) {
    && |t.hops| == |s.hops| && (forall i | 0 <= i < |s.hops| :: s.hops[i].returned <= t.hops[i].returned)
    && (forall k | k in s.proxy.table :: k in t.proxy.table &&
          s.proxy.table[k].pipe.written <= t.proxy.table[k].pipe.written)
    && (forall k | k in t.proxy.table && k !in s.proxy.table :: Of(s.proxy.cut, k) == [])
  }

  lemma StepAdvances(s: System, a: Action)
    requires PartsInv(s) && Enabled(s, a) && !NewInput(a)
    ensures Advances(s, Next(s, a)) && (forall i | i in s.link :: i in Next(s, a).link)
  {
    hide PartsInv, Drain, Frames, Flatten, UnwrapFrame, WrapFrame, W.Step, Write, Enqueue, Of;
    if a.Proxy? {
      ProxyAdvances(s, a.a);
    }
  }

  lemma ProxyAdvances(s: System, b: S.Action)
    requires PartsInv(s) && Allowed(s.proxy, b) && !b.Receive?
    ensures var t := S.Next(s.proxy, b);
      && (forall k | k in s.proxy.table :: k in t.table && s.proxy.table[k].pipe.written <= t.table[k].pipe.written)
      && (forall k | k in t.table && k !in s.proxy.table :: Of(s.proxy.cut, k) == [])
  {
    hide PartsInv, S.Next, S.Enabled, Steady, HopInv, Of;
    PartsOf(s);
    StepGrows(s.proxy, b);
    var t := S.Next(s.proxy, b);
    if b.Accept? {
      NewIsOwedNothing(s.proxy, b.k);
    } else {
      forall k | k in s.proxy.table ensures s.proxy.table[k].pipe.written <= t.table[k].pipe.written {
        PipeOf(s.proxy, k);
        ServerStepConn(s.proxy, b, k);
      }
    }
  }

  lemma NewIsOwedNothing(s: S.Server, k: Key)
    requires Steady(s) && S.Enabled(s, S.Accept(k))
    ensures Of(s.cut, k) == []
    ensures forall l | l in s.table :: S.Next(s, S.Accept(k)).table[l] == s.table[l]
  {
    S.AcceptStep(s, k);
    UnknownHasNone(s.cut, s.table, k);
  }

  lemma MoreWholeFrames(w: bytes, v: bytes, log: seq<bytes>)
    requires w <= v <= Flatten(log) && SafeFrames(log)
    ensures |Frames(Greedy(w).segments)| <= |Frames(Greedy(v).segments)|
  {
    hide Greedy, Frames;
    GreedyOfPrefix(log, v);
    GreedyOfPrefix(log, w);
    MoreFrames(w, v);
  }

  lemma MoreFrames(w: bytes, v: bytes)
    requires w <= v && Clean(Greedy(w)) && Clean(Greedy(v))
    ensures Frames(Greedy(w).segments) <= Frames(Greedy(v).segments)
  {
    hide Greedy;
    assert v == w + v[|w|..];
    GreedyResumes(w, v[|w|..]);
    FramesAppend(Greedy(w).segments, Greedy(Greedy(w).residue + v[|w|..]).segments);
  }

  lemma OwesLess(s: System, t: System, k: Key)
    requires Inv(t) && t.proxy.cut == s.proxy.cut && k in s.proxy.table && k in t.proxy.table
    requires s.proxy.table[k].pipe.written <= t.proxy.table[k].pipe.written
    ensures Owed(t, k) <= Owed(s, k)
  {
    hide Of, LinkInv, HandInv, DownInv, Steady, HopInv, Greedy, FeedAll, Flatten, Frames, SafeFrames;
    PartsOf(t);
    SentBack(t, k);
    ClientCutsAreSafe(t, k);
    SafeSubset(Of(t.proxy.calls.log, k), Of(t.proxy.cut, k));
    WrittenIsPrefix(t.proxy, k);
    MoreWholeFrames(s.proxy.table[k].pipe.written, t.proxy.table[k].pipe.written, Of(t.proxy.calls.log, k));
  }

  lemma OwesNothing(s: System, k: Key)
    requires k in s.proxy.table && Of(s.proxy.cut, k) == []
    ensures Owed(s, k) <= 0
  {
  }

  lemma StaysBounded(s: System, t: System)
    requires s.hops != [] && t.hops != [] && Bounded(s) && Inv(t) && Advances(s, t) && t.proxy.cut == s.proxy.cut
    ensures Bounded(t)
  {
    hide Inv, Routed, Owed, Of;
    forall k | k in t.proxy.table ensures Owed(t, k) <= 1_000_000 {
      if k in s.proxy.table {
        OwesLess(s, t, k);
      } else {
        OwesNothing(t, k);
      }
    }
  }

  /** Everything used is connected, and few enough frames are under way for no queue to overflow. */
  ghost predicate CanFinish(s: System) {
    && Ready(s) && s.hops != [] && Bounded(s)
    && forall i | 0 <= i < |s.hops| :: Reached(s, i)
  }

  lemma StepKeepsCanFinish(s: System, a: Action)
    requires CanFinish(s) && Enabled(s, a) && !NewInput(a)
    ensures CanFinish(Next(s, a)) && SameInput(s, Next(s, a))
  {
    hide PartsInv, UpInv, LinkInv, HandInv, DownInv, Matched, Enabled, Next, Delivers, Bounded, Routed;
    PartsHold(s);
    StepAdvances(s, a);
    StepKeepsReady(s, a);
    StaysBounded(s, Next(s, a));
    forall i | 0 <= i < |s.hops| ensures Reached(Next(s, a), i) {
      assert Reached(s, i);
    }
  }

  lemma DeliversNoInput(s: System, a: Action)
    requires Delivers(s, a)
    ensures !NewInput(a)
  {
  }

  /** From every such state the system can come to rest, without anything more from the clients. */
  lemma {:induction false} FinishingRun(s: System) returns (run: seq<Action>, t: System)
    requires CanFinish(s)
    ensures Follows(s, run, t) && Quiet(t) && Ready(t) && SameInput(s, t)
    decreases R0(s), R1(s), R2(s), R3(s), R4(s), R5(s), R6(s), R7(s), R8(s)
  {
    hide Inv, Matched, Bounded, Reached, Quiet, Enabled, Delivers, Next, Rank, Below, R0, R1, R2, R3, R4, R5, R6, R7, R8;
    if Quiet(s) {
      run, t := [], s;
    } else {
      ForwardedBound(s);
      BoundedIsFew(s);
      var a := ReadyMoves(s);
      DeliversNoInput(s, a);
      StepKeepsCanFinish(s, a);
      WorkersFit(s);
      StepLowersRank(s, a);
      LowerRank(s, Next(s, a));
      run, t := FinishingRun(Next(s, a));
      run := [a] + run;
    }
  }

  // ---- Idle steps disable nothing ----------------------------------------------------------------

  /** a is a step that would carry something onwards in s. */
  ghost predicate Ripe(s: System, a: Action) {
    Enabled(s, a) && Delivers(s, a)
  }

  lemma IdleWriteKeeps(p: Pipe, n: nat)
    requires PipeInv(p) && CanWrite(p, n) && !Progress(p, n)
    ensures var q := Write(p, n); q.queue == p.queue && q.written == p.written && (p.queue != [] ==> q == p)
  {
    if p.queue != [] {
      assert [p.queue[0]] + p.queue[1..] == p.queue;
      assert p.queue[0].(pos := p.queue[0].pos + n) == p.queue[0];
      assert p.written + Rest(p.queue[0])[..n] == p.written;
    }
  }

  /** An idle step of a client leaves its lists as they are, but for a wish to write nothing. */
  lemma ClientIdleKeeps(c: C.Client, b: C.Action)
    requires C.Inv(c) && C.Enabled(c, b) && !C.Delivers(c, b) && !b.Send? && !b.Reconnect?
    ensures var d := C.Next(c, b);
      && d.calls == c.calls && d.pipe.queue == c.pipe.queue && d.pipe.written == c.pipe.written
      && (c.pipe.queue != [] ==> d.pipe == c.pipe)
  {
    IdleWriteKeeps(c.pipe, b.n);
  }

  lemma SameClientRipe(c: C.Client, d: C.Client, a: C.Action)
    requires d.calls == c.calls && d.pipe.queue == c.pipe.queue && (c.pipe.queue != [] ==> d.pipe == c.pipe)
    requires C.Enabled(c, a) && C.Delivers(c, a)
    ensures C.Enabled(d, a) && C.Delivers(d, a)
  {
  }

  /** The connections of s are in t as they were, but for wishes to write nothing; those new in t are empty. */
  ghost predicate SamePipes(s: S.Server, t: S.Server) {
    && (forall k | k in s.table :: k in t.table && t.table[k].pipe.queue == s.table[k].pipe.queue &&
          (s.table[k].pipe.queue != [] ==> t.table[k].pipe == s.table[k].pipe))
    && (forall k | k in t.table && k !in s.table :: t.table[k].pipe.queue == [])
  }

  lemma ServerIdlePipes(s: S.Server, b: S.Action)
    requires S.Inv(s) && Allowed(s, b) && !S.Delivers(s, b) && !b.Receive?
    ensures SamePipes(s, S.Next(s, b))
  {
    hide S.Inv, Write;
    if b.WriteReady? {
      ConnPipe(s, b.k);
      IdleWriteKeeps(s.table[b.k].pipe, b.n);
    }
  }

  lemma SamePipesRipe(s: S.Server, t: S.Server, a: S.Action)
    requires SamePipes(s, t) && t.calls == s.calls && Allowed(s, a) && S.Delivers(s, a)
    ensures Allowed(t, a) && S.Delivers(t, a)
  {
  }

  /** The hops of s and t differ at most in what their clients wish to write. */
  ghost predicate SameHops(s: System, t: System) {
    && |t.hops| == |s.hops| && t == s.(hops := t.hops)
    && forall i | 0 <= i < |s.hops| :: SameHop(s.hops[i], t.hops[i])
  }

  ghost predicate SameHop(h: Hop, l: Hop) {
    && l == h.(client := l.client) && l.client.calls == h.client.calls
    && l.client.pipe.queue == h.client.pipe.queue && l.client.pipe.written == h.client.pipe.written
    && (h.client.pipe.queue != [] ==> l.client.pipe == h.client.pipe)
  }

  lemma SameHopsRipe(s: System, t: System, a: Action)
    requires SameHops(s, t) && Ripe(s, a)
    ensures Ripe(t, a)
  {
    hide C.Enabled, C.Delivers, Flatten, Allowed, S.Delivers, Drain, Frames, AllEcho, S.Enabled;
    match a
    case HopStep(i, b) =>
      assert SameHop(s.hops[i], t.hops[i]);
      SameClientRipe(s.hops[i].client, t.hops[i].client, b);
    case HopReceive(i, _) => assert SameHop(s.hops[i], t.hops[i]);
    case Return(i) => assert SameHop(s.hops[i], t.hops[i]);
    case TargetReceive(i, _) => assert SameHop(s.hops[i], t.hops[i]);
    case _ =>
  }

  lemma IdleHopKeeps(s: System, i: nat, b: C.Action)
    requires PartsInv(s) && Enabled(s, HopStep(i, b)) && !C.Delivers(s.hops[i].client, b)
    ensures SameHops(s, Next(s, HopStep(i, b)))
  {
    hide PartsInv, C.Inv, C.Next, C.Enabled, C.Delivers, Flatten;
    PartsOf(s);
    assert HopInv(s.hops[i]);
    ClientIdleKeeps(s.hops[i].client, b);
  }

  lemma IdleConnectKeeps(s: System, i: nat, k: Key, a: Action)
    requires LinkInv(s) && Enabled(s, Connect(i, k)) && Ripe(s, a)
    ensures Ripe(Next(s, Connect(i, k)), a)
  {
    hide Flatten, C.Enabled, C.Delivers, Drain, Frames;
  }

  /** t differs from s at most in what its target's connections wish to write. */
  lemma SameTargetRipe(s: System, t: System, a: Action)
    requires t == s.(target := t.target) && SamePipes(s.target, t.target) && SameStreams(s.target, t.target)
    requires t.target.calls == s.target.calls && t.target.cut == s.target.cut && Ripe(s, a)
    ensures Ripe(t, a)
  {
    hide Flatten, C.Enabled, C.Delivers, Allowed, S.Delivers, S.Enabled, Drain, Frames, AllEcho, SamePipes;
    if a.Target? {
      SamePipesRipe(s.target, t.target, a.a);
    }
  }

  lemma IdleTargetKeeps(s: System, b: S.Action, a: Action)
    requires PartsInv(s) && Enabled(s, Target(b)) && !S.Delivers(s.target, b) && Ripe(s, a)
    ensures Ripe(Next(s, Target(b)), a)
  {
    hide PartsInv, Steady, HopInv, Allowed, S.Next, S.Delivers, SamePipes, SameStreams, Ripe;
    PartsOf(s);
    SteadyInv(s.target);
    ServerIdle(s.target, b);
    ServerIdlePipes(s.target, b);
    SameTargetRipe(s, Next(s, Target(b)), a);
  }

  /** t differs from s at most in what its proxy's connections wish to write. */
  lemma SameProxyRipe(s: System, t: System, a: Action)
    requires t == s.(proxy := t.proxy) && SamePipes(s.proxy, t.proxy)
    requires t.proxy.calls == s.proxy.calls && t.proxy.cut == s.proxy.cut && Ripe(s, a)
    ensures Ripe(t, a)
  {
    hide Flatten, C.Enabled, C.Delivers, Allowed, S.Enabled, Drain, Frames, AllEcho, SamePipes;
    if a.Proxy? {
      SamePipesRipe(s.proxy, t.proxy, a.a);
    }
  }

  lemma IdleProxyKeeps(s: System, b: S.Action, a: Action)
    requires PartsInv(s) && Enabled(s, Proxy(b)) && !S.Delivers(s.proxy, b) && !b.Receive? && Ripe(s, a)
    ensures Ripe(Next(s, Proxy(b)), a)
  {
    hide PartsInv, Steady, HopInv, Allowed, S.Next, S.Delivers, SamePipes, SameStreams, Ripe, AllEcho, Drain, Frames;
    PartsOf(s);
    SteadyInv(s.proxy);
    ServerIdle(s.proxy, b);
    ServerIdlePipes(s.proxy, b);
    SameProxyRipe(s, Next(s, Proxy(b)), a);
  }

  lemma IdleWorkKeeps(s: System, i: nat, a: Action)
    requires HandInv(s) && Enabled(s, Work(i)) && !Delivers(s, Work(i)) && Ripe(s, a)
    ensures Ripe(Next(s, Work(i)), a)
  {
    hide HandInv, Flatten, C.Enabled, C.Delivers, Allowed, S.Delivers, S.Enabled, W.Step, W.ThreadInv;
    WorkerInv(s, i);
    WorkerIdle(s.pool.threads[i]);
  }

  /** A step that could deliver can still do so after any step that delivers nothing. */
  lemma IdleKeepsRipe(s: System, b: Action, a: Action)
    requires Inv(s) && Enabled(s, b) && !Delivers(s, b) && !NewInput(b) && Ripe(s, a)
    ensures Ripe(Next(s, b), a)
  {
    hide PartsInv, UpInv, LinkInv, HandInv, DownInv, Enabled, Next, Ripe;
    match b
    case HopStep(i, c) => EnabledHop(s, i, c); IdleHopKeeps(s, i, c); SameHopsRipe(s, Next(s, b), a);
    case Connect(i, k) => IdleConnectKeeps(s, i, k, a);
    case Target(c) => IdleTargetKeeps(s, c, a);
    case Work(i) => IdleWorkKeeps(s, i, a);
    case Proxy(c) => IdleProxyKeeps(s, c, a);
  }

  // ---- Fair behaviours ---------------------------------------------------------------------------

  datatype Thread = ProxyLoop | HopLoop(i: nat) | TargetLoop | Worker(i: nat)

  /** The thread that takes a step. */
  function Who(a: Action): Thread {
    match a
    case Proxy(_) => ProxyLoop
    case Forward => ProxyLoop
    case HopStep(i, _) => HopLoop(i)
    case HopReceive(i, _) => HopLoop(i)
    case Return(i) => HopLoop(i)
    case Connect(_, _) => TargetLoop
    case TargetReceive(_, _) => TargetLoop
    case Target(_) => TargetLoop
    case Handle => TargetLoop
    case Work(i) => Worker(i)
  }

  ghost predicate CanServe(s: System, w: Thread) {
    exists a: Action :: Ripe(s, a) && Who(a) == w
  }

  ghost predicate Serves(f: nat -> System, g: nat -> Action, w: Thread, i: nat) {
    Ripe(f(i), g(i)) && Who(g(i)) == w && f(i + 1) == Next(f(i), g(i))
  }

  ghost predicate ServesFrom(f: nat -> System, g: nat -> Action, w: Thread, i: nat) {
    exists j: nat :: j >= i && Serves(f, g, w, j)
  }

  /** A thread that from some instant on always has something to carry onwards does so for some of it. */
  ghost predicate WeaklyFair(f: nat -> System, g: nat -> Action) {
    forall w: Thread, m: nat :: (forall i: nat | i >= m :: CanServe(f(i), w)) ==> ServesFrom(f, g, w, m)
  }

  lemma {:induction false} StaysFinishable(f: nat -> System, g: nat -> Action, n: nat)
    requires CanFinish(f(0)) && Behaviour(f, g)
    ensures CanFinish(f(n))
  {
    hide CanFinish, Enabled, Next;
    if n > 0 {
      StaysFinishable(f, g, n - 1);
      assert Goes(f(n - 1), g(n - 1), f(n - 1 + 1));
      if f(n) != f(n - 1) {
        StepKeepsCanFinish(f(n - 1), g(n - 1));
      }
    }
  }

  lemma {:induction false} StaysRipe(f: nat -> System, g: nat -> Action, m: nat, n: nat, a: Action)
    requires CanFinish(f(0)) && Behaviour(f, g) && m <= n && Ripe(f(m), a)
    requires forall j: nat | j >= m :: !At(f, g, j)
    ensures Ripe(f(n), a)
    decreases n - m
  {
    hide Inv, Matched, Bounded, Reached, Enabled, Next, Delivers, Quiet, Ripe;
    if m < n {
      StaysRipe(f, g, m, n - 1, a);
      StaysFinishable(f, g, n - 1);
      assert Goes(f(n - 1), g(n - 1), f(n - 1 + 1)) && !At(f, g, n - 1);
      if f(n) != f(n - 1) {
        IdleKeepsRipe(f(n - 1), g(n - 1), a);
      }
    }
  }

  lemma FewLeft(s: System)
    requires CanFinish(s)
    ensures Inv(s) && Matched(s) && s.forwarded <= |s.proxy.cut| && FewUnderWay(s)
    ensures forall i | 0 <= i < |s.hops| :: Reached(s, i)
  {
    hide Inv, Matched, Bounded, Reached, FewUnderWay;
    ForwardedBound(s);
    BoundedIsFew(s);
  }

  /** In a fair behaviour something is always yet to be carried onwards. */
  lemma FairDelivers(f: nat -> System, g: nat -> Action, m: nat)
    requires CanFinish(f(0)) && Behaviour(f, g) && WeaklyFair(f, g)
    ensures DeliversFrom(f, g, m)
  {
    hide CanFinish, Inv, Matched, Reached, Enabled, Next, Delivers, Quiet, Behaviour, FewUnderWay;
    if !DeliversFrom(f, g, m) {
      assert !At(f, g, m);
      StaysFinishable(f, g, m);
      FewLeft(f(m));
      var a := ReadyMoves(f(m));
      forall i: nat | i >= m ensures CanServe(f(i), Who(a)) {
        StaysRipe(f, g, m, i, a);
      }
      assert ServesFrom(f, g, Who(a), m);
      var j: nat :| j >= m && Serves(f, g, Who(a), j);
      ServesIsAt(f, g, Who(a), j);
    }
  }

  lemma ServesIsAt(f: nat -> System, g: nat -> Action, w: Thread, j: nat)
    requires Serves(f, g, w, j)
    ensures At(f, g, j)
  {
  }

  /** Liveness from fairness alone. Take any behaviour from a state with everything used connected and few enough
      frames under way, in which the clients send nothing more. If its threads are scheduled fairly, it comes to rest,
      and then each client has been written back exactly the frames the proxy had cut from what it had received. */
  lemma FairBehaviourFinishes(f: nat -> System, g: nat -> Action) returns (n: nat)
    requires CanFinish(f(0)) && Behaviour(f, g) && WeaklyFair(f, g)
    ensures Quiet(f(n))
    ensures forall k | k in f(0).proxy.table :: k in f(n).proxy.table && WroteBack(f(n), k, ClientFrames(f(0), k))
  {
    hide Inv, Matched, Bounded, Reached, Quiet, WroteBack, ClientFrames, Behaviour, WeaklyFair, DeliversFrom;
    forall i: nat ensures DeliversFrom(f, g, i) {
      FairDelivers(f, g, i);
    }
    n := EveryBehaviourFinishes(f, g);
  }
}
