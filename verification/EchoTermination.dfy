/** Delivering steps of the proxied echo system cannot go on for ever, and other steps undo nothing: if delivering steps
    keep happening, every frame the proxy has cut comes back. */
module EchoTermination {
  import opened Wire
  import opened SocketKey
  import opened Framing
  import opened Chunking
  import opened KeyedLog
  import opened SendPath
  import opened ProxyFrames
  import opened SteadyServer
  import opened EchoSystem
  import opened EchoProofs
  import opened EchoInvariant
  import opened EchoCompletion
  import opened EchoBounds
  import opened DeliveryMeasure
  import S = ServerSteps
  import C = ClientSteps
  import W = WorkerPool

  // ---- The rank: work left at each stage, from the proxy's frames to the bytes written back ------

  ghost function Minus(x: int, y: int): nat { if x >= y then x - y else 0 }

  ghost function HopLoad(s: System): nat -> nat {
    (i: nat) => if i < |s.hops| then ClientLoad(s.hops[i].client) else 0
  }

  /** How many bytes the target has received from upstream i, and written to it. */
  ghost function Got(s: System, i: nat): nat { if Linked(s, i) then |Received(s, i)| else 0 }

  ghost function Wrote(s: System, i: nat): nat { if Linked(s, i) then |Echoed(s, i)| else 0 }

  ghost function UpLeft(s: System): nat -> nat {
    (i: nat) => if i < |s.hops| then Minus(|s.hops[i].client.pipe.written|, Got(s, i)) else 0
  }

  ghost function DownLeft(s: System): nat -> nat {
    (i: nat) => if i < |s.hops| then Minus(Wrote(s, i), |Flatten(s.hops[i].chunks)|) else 0
  }

  ghost function ReturnLeft(s: System): nat -> nat {
    (i: nat) => if i < |s.hops| then Minus(|s.hops[i].frames|, s.hops[i].returned) else 0
  }

  ghost function PoolLoad(s: System): nat -> nat {
    (i: nat) => if i < |s.pool.threads| then WorkerLoad(s.pool.threads[i]) else 0
  }

  ghost function R0(s: System): nat { Minus(|s.proxy.cut|, s.forwarded) }
  ghost function R1(s: System): nat { Sum(HopLoad(s), |s.hops|) }
  ghost function R2(s: System): nat { Sum(UpLeft(s), |s.hops|) }
  ghost function R3(s: System): nat { Minus(|s.target.cut|, s.handed) }
  ghost function R4(s: System): nat { Sum(PoolLoad(s), |s.pool.threads|) }
  ghost function R5(s: System): nat { ServerLoad(s.target) }
  ghost function R6(s: System): nat { Sum(DownLeft(s), |s.hops|) }
  ghost function R7(s: System): nat { Sum(ReturnLeft(s), |s.hops|) }
  ghost function R8(s: System): nat { ServerLoad(s.proxy) }

  ghost function Rank(s: System): (r: seq<nat>)
    ensures |r| == 9
  {
    [R0(s), R1(s), R2(s), R3(s), R4(s), R5(s), R6(s), R7(s), R8(s)]
  }

  /** The lexicographic order on ranks, which is well-founded. */
  ghost predicate Below(r: seq<nat>, q: seq<nat>)
    requires |r| == |q|
  {
    exists i | 0 <= i < |r| :: r[i] < q[i] && forall j | 0 <= j < i :: r[j] == q[j]
  }

  lemma BelowAt(r: seq<nat>, q: seq<nat>, i: nat)
    requires |r| == |q| && i < |r| && r[i] < q[i] && forall j | 0 <= j < i :: r[j] == q[j]
    ensures Below(r, q)
  {
  }

  // ---- What each stage's work depends on ---------------------------------------------------------

  lemma SameClients(s: System, t: System)
    requires |t.hops| == |s.hops| && forall i | 0 <= i < |s.hops| :: t.hops[i].client == s.hops[i].client
    ensures R1(t) == R1(s)
  {
    SumSame(HopLoad(t), HopLoad(s), |s.hops|);
  }

  lemma SameUp(s: System, t: System)
    requires |t.hops| == |s.hops|
    requires forall i | 0 <= i < |s.hops| :: t.hops[i].client.pipe.written == s.hops[i].client.pipe.written
    requires forall i | 0 <= i < |s.hops| :: Got(t, i) == Got(s, i)
    ensures R2(t) == R2(s)
  {
    hide Got;
    SumSame(UpLeft(t), UpLeft(s), |s.hops|);
  }

  lemma SameDown(s: System, t: System)
    requires |t.hops| == |s.hops| && forall i | 0 <= i < |s.hops| :: t.hops[i].chunks == s.hops[i].chunks
    requires forall i | 0 <= i < |s.hops| :: Wrote(t, i) == Wrote(s, i)
    ensures R6(t) == R6(s)
  {
    hide Wrote, Flatten;
    SumSame(DownLeft(t), DownLeft(s), |s.hops|);
  }

  lemma SameReturn(s: System, t: System)
    requires |t.hops| == |s.hops|
    requires forall i | 0 <= i < |s.hops| :: t.hops[i].frames == s.hops[i].frames && t.hops[i].returned == s.hops[i].returned
    ensures R7(t) == R7(s)
  {
    SumSame(ReturnLeft(t), ReturnLeft(s), |s.hops|);
  }

  lemma SamePool(s: System, t: System)
    requires t.pool == s.pool
    ensures R4(t) == R4(s)
  {
    SumSame(PoolLoad(t), PoolLoad(s), |s.pool.threads|);
  }

  // ---- Each delivering step lowers the rank ------------------------------------------------------

  lemma ForwardRank(s: System)
    requires Enabled(s, Forward)
    ensures R0(Next(s, Forward)) < R0(s)
  {
    hide WrapFrame;
  }

  lemma HopStepRank(s: System, i: nat, b: C.Action)
    requires PartsInv(s) && Enabled(s, HopStep(i, b)) && C.Delivers(s.hops[i].client, b)
    ensures R0(Next(s, HopStep(i, b))) == R0(s) && R1(Next(s, HopStep(i, b))) < R1(s)
  {
    hide PartsInv, C.Next, C.Enabled, C.Delivers, ClientLoad, Full;
    var t := Next(s, HopStep(i, b));
    PartsOf(s);
    assert HopInv(s.hops[i]);
    ClientProgress(s.hops[i].client, b);
    SumLess(HopLoad(t), HopLoad(s), |s.hops|, i);
  }

  lemma TargetReceiveRank(s: System, i: nat, chunk: bytes)
    requires LinkInv(s) && Enabled(s, TargetReceive(i, chunk))
    ensures var t := Next(s, TargetReceive(i, chunk)); R0(t) == R0(s) && R1(t) == R1(s) && R2(t) < R2(s)
  {
    hide Flatten, Drain, Frames, ClientLoad;
    var t, k := Next(s, TargetReceive(i, chunk)), s.link[i];
    SameClients(s, t);
    assert Linked(s, i);
    FlattenSingle(s.target.table[k].chunks, chunk);
    ReceivedElsewhere(s, i, chunk);
    SumLess(UpLeft(t), UpLeft(s), |s.hops|, i);
  }

  lemma ReceivedElsewhere(s: System, i: nat, chunk: bytes)
    requires LinkInv(s) && Enabled(s, TargetReceive(i, chunk))
    ensures forall j | 0 <= j < |s.hops| && j != i :: UpLeft(Next(s, TargetReceive(i, chunk)))(j) == UpLeft(s)(j)
  {
    hide Flatten, Drain, Frames;
    var t := Next(s, TargetReceive(i, chunk));
    forall j | 0 <= j < |s.hops| && j != i ensures UpLeft(t)(j) == UpLeft(s)(j) {
      assert Linked(t, j) == Linked(s, j);
    }
  }

  lemma HandleRank(s: System)
    requires Enabled(s, Handle)
    ensures var t := Next(s, Handle); R0(t) == R0(s) && R1(t) == R1(s) && R2(t) == R2(s) && R3(t) < R3(s)
  {
    hide Flatten, ClientLoad, W.Next;
    var t := Next(s, Handle);
    SameClients(s, t);
    SameUp(s, t);
  }

  lemma WorkerInv(s: System, i: nat)
    requires HandInv(s) && i < |s.pool.threads|
    ensures W.ThreadInv(s.pool.threads[i]) && s.pool.threads[i].running && s.pool.threads[i].pc != W.Exited
  {
  }

  lemma WorkRank(s: System, i: nat)
    requires HandInv(s) && Enabled(s, Work(i)) && Delivers(s, Work(i)) && |s.pool.threads[i].queue| <= INT_MAX
    ensures var t := Next(s, Work(i));
      R0(t) == R0(s) && R1(t) == R1(s) && R2(t) == R2(s) && R3(t) == R3(s) && R4(t) < R4(s)
  {
    hide HandInv, Flatten, ClientLoad, W.Step, W.ThreadInv, WorkerLoad;
    var t := Next(s, Work(i));
    WorkerInv(s, i);
    WorkerProgress(s.pool.threads[i]);
    SameClients(s, t);
    SameUp(s, t);
    SumLess(PoolLoad(t), PoolLoad(s), |s.pool.threads|, i);
  }

  lemma TargetStreams(s: System, b: S.Action)
    requires PartsInv(s) && LinkInv(s) && Enabled(s, Target(b))
    ensures forall i | 0 <= i < |s.hops| :: Got(Next(s, Target(b)), i) == Got(s, i)
  {
    hide PartsInv, LinkInv, Flatten, S.Next, Allowed, Steady, HopInv;
    var t := Next(s, Target(b));
    PartsOf(s);
    StepGrows(s.target, b);
    forall i | 0 <= i < |s.hops| ensures Got(t, i) == Got(s, i) {
      if Linked(s, i) {
        PipeOf(s.target, s.link[i]);
        ServerStepConn(s.target, b, s.link[i]);
      }
    }
  }

  lemma TargetRank(s: System, b: S.Action)
    requires PartsInv(s) && LinkInv(s) && Enabled(s, Target(b)) && S.Delivers(s.target, b)
    ensures var t := Next(s, Target(b));
      R0(t) == R0(s) && R1(t) == R1(s) && R2(t) == R2(s) && R3(t) == R3(s) && R4(t) == R4(s) && R5(t) < R5(s)
  {
    hide PartsInv, LinkInv, Flatten, ClientLoad, WorkerLoad, ServerLoad, S.Next, Allowed, S.Delivers, Steady, HopInv, Got;
    var t := Next(s, Target(b));
    PartsOf(s);
    SteadyInv(s.target);
    ServerProgress(s.target, b);
    StepGrows(s.target, b);
    TargetStreams(s, b);
    SameClients(s, t);
    SameUp(s, t);
    SamePool(s, t);
  }

  lemma HopReceiveRank(s: System, i: nat, chunk: bytes)
    requires Enabled(s, HopReceive(i, chunk))
    ensures var t := Next(s, HopReceive(i, chunk));
      R0(t) == R0(s) && R1(t) == R1(s) && R2(t) == R2(s) && R3(t) == R3(s) && R4(t) == R4(s) && R5(t) == R5(s) &&
      R6(t) < R6(s)
  {
    hide Flatten, Drain, Frames, ClientLoad, WorkerLoad, ServerLoad;
    var t := Next(s, HopReceive(i, chunk));
    SameClients(s, t);
    SameUp(s, t);
    FlattenSingle(s.hops[i].chunks, chunk);
    SumLess(DownLeft(t), DownLeft(s), |s.hops|, i);
  }

  lemma ReturnRank(s: System, i: nat)
    requires Enabled(s, Return(i))
    ensures var t := Next(s, Return(i));
      R0(t) == R0(s) && R1(t) == R1(s) && R2(t) == R2(s) && R3(t) == R3(s) && R4(t) == R4(s) && R5(t) == R5(s) &&
      R6(t) == R6(s) && R7(t) < R7(s)
  {
    hide Flatten, ClientLoad, WorkerLoad, ServerLoad, UnwrapFrame;
    var t := Next(s, Return(i));
    SameClients(s, t);
    SameUp(s, t);
    SameDown(s, t);
    SumLess(ReturnLeft(t), ReturnLeft(s), |s.hops|, i);
  }

  lemma ProxyRank(s: System, b: S.Action)
    requires PartsInv(s) && Enabled(s, Proxy(b)) && S.Delivers(s.proxy, b)
    ensures var t := Next(s, Proxy(b));
      R0(t) == R0(s) && R1(t) == R1(s) && R2(t) == R2(s) && R3(t) == R3(s) && R4(t) == R4(s) && R5(t) == R5(s) &&
      R6(t) == R6(s) && R7(t) == R7(s) && R8(t) < R8(s)
  {
    hide PartsInv, Flatten, Drain, Frames, ClientLoad, WorkerLoad, ServerLoad, S.Next, Allowed, AllEcho, Steady, HopInv;
    var t := Next(s, Proxy(b));
    PartsOf(s);
    SteadyInv(s.proxy);
    ServerProgress(s.proxy, b);
    StepGrows(s.proxy, b);
    NotReceive(s.proxy, b);
    hide Got, Wrote;
    SameStreamsAt(s, t);
    SameClients(s, t);
    SameUp(s, t);
    SamePool(s, t);
    SameDown(s, t);
    SameReturn(s, t);
  }

  lemma NotReceive(s: S.Server, b: S.Action)
    requires S.Delivers(s, b)
    ensures !b.Receive? && !b.Accept? && !b.Send? && !b.Lose?
  {
  }

  /** Every delivering step lowers the rank, so no run of delivering steps goes on for ever. */
  lemma StepLowersRank(s: System, a: Action)
    requires Inv(s) && Enabled(s, a) && Delivers(s, a)
    requires forall i | 0 <= i < |s.pool.threads| :: |s.pool.threads[i].queue| <= INT_MAX
    ensures Below(Rank(Next(s, a)), Rank(s))
  {
    hide PartsInv, UpInv, LinkInv, HandInv, DownInv, Enabled, Next, Below, R0, R1, R2, R3, R4, R5, R6, R7, R8;
    var r, q := Rank(Next(s, a)), Rank(s);
    match a
    case Forward => ForwardRank(s); BelowAt(r, q, 0);
    case HopStep(i, b) => EnabledHop(s, i, b); HopStepRank(s, i, b); BelowAt(r, q, 1);
    case TargetReceive(i, chunk) => TargetReceiveRank(s, i, chunk); BelowAt(r, q, 2);
    case Handle => HandleRank(s); BelowAt(r, q, 3);
    case Work(i) => WorkRank(s, i); BelowAt(r, q, 4);
    case Target(b) => TargetRank(s, b); BelowAt(r, q, 5);
    case HopReceive(i, chunk) => HopReceiveRank(s, i, chunk); BelowAt(r, q, 6);
    case Return(i) => ReturnRank(s, i); BelowAt(r, q, 7);
    case Proxy(b) => ProxyRank(s, b); BelowAt(r, q, 8);
  }

  // ---- Any other step leaves the rank as it is ---------------------------------------------------

  /** Steps by which more comes from the clients. */
  predicate NewInput(a: Action) { a.Proxy? && a.a.Receive? }

  lemma SameStreamsAt(s: System, t: System)
    requires |t.hops| == |s.hops| && t.link == s.link && t.target == s.target
    ensures forall i | 0 <= i < |s.hops| :: Got(t, i) == Got(s, i) && Wrote(t, i) == Wrote(s, i)
  {
    hide Flatten;
  }

  lemma IdleHop(s: System, i: nat, b: C.Action)
    requires PartsInv(s) && Enabled(s, HopStep(i, b)) && !C.Delivers(s.hops[i].client, b)
    ensures Rank(Next(s, HopStep(i, b))) == Rank(s)
  {
    hide PartsInv, C.Inv, C.Next, C.Enabled, C.Delivers, ClientLoad, ServerLoad, WorkerLoad, Flatten;
    var t := Next(s, HopStep(i, b));
    PartsOf(s);
    assert HopInv(s.hops[i]);
    ClientIdle(s.hops[i].client, b);
    hide HopInv, Got, Wrote;
    SameStreamsAt(s, t);
    SumSame(HopLoad(t), HopLoad(s), |s.hops|);
    SameUp(s, t);
    SamePool(s, t);
    SameDown(s, t);
    SameReturn(s, t);
  }

  lemma ConnectStreams(s: System, i: nat, k: Key)
    requires LinkInv(s) && Enabled(s, Connect(i, k))
    ensures var t := Next(s, Connect(i, k));
      forall j | 0 <= j < |s.hops| :: Got(t, j) == Got(s, j) && Wrote(t, j) == Wrote(s, j)
  {
    hide Flatten;
    EmptyFlatten();
    var t := Next(s, Connect(i, k));
    forall j | 0 <= j < |s.hops| ensures Got(t, j) == Got(s, j) && Wrote(t, j) == Wrote(s, j) {
      if j in s.link {
        assert Linked(s, j);
      }
    }
  }

  lemma IdleConnect(s: System, i: nat, k: Key)
    requires LinkInv(s) && Enabled(s, Connect(i, k))
    ensures Rank(Next(s, Connect(i, k))) == Rank(s)
  {
    ConnectStreams(s, i, k);
    hide LinkInv, ClientLoad, ServerLoad, WorkerLoad, Flatten, Got, Wrote;
    var t := Next(s, Connect(i, k));
    AcceptIdle(s.target, k);
    SameClients(s, t);
    SameUp(s, t);
    SamePool(s, t);
    SameDown(s, t);
    SameReturn(s, t);
  }

  lemma IdleTarget(s: System, b: S.Action)
    requires PartsInv(s) && LinkInv(s) && Enabled(s, Target(b)) && !S.Delivers(s.target, b)
    ensures Rank(Next(s, Target(b))) == Rank(s)
  {
    hide PartsInv, LinkInv, Steady, HopInv, ClientLoad, ServerLoad, WorkerLoad, Flatten, S.Next, Allowed, S.Delivers;
    var t := Next(s, Target(b));
    PartsOf(s);
    SteadyInv(s.target);
    ServerIdle(s.target, b);
    StepGrows(s.target, b);
    assert forall i | 0 <= i < |s.hops| :: Got(t, i) == Got(s, i) && Wrote(t, i) == Wrote(s, i);
    hide Got, Wrote;
    SameClients(s, t);
    SameUp(s, t);
    SamePool(s, t);
    SameDown(s, t);
    SameReturn(s, t);
  }

  lemma IdleWork(s: System, i: nat)
    requires HandInv(s) && Enabled(s, Work(i)) && !Delivers(s, Work(i))
    ensures Rank(Next(s, Work(i))) == Rank(s)
  {
    hide HandInv, ClientLoad, ServerLoad, WorkerLoad, Flatten, W.Step, W.ThreadInv;
    var t := Next(s, Work(i));
    WorkerInv(s, i);
    WorkerIdle(s.pool.threads[i]);
    SumSame(PoolLoad(t), PoolLoad(s), |s.pool.threads|);
    SameClients(s, t);
    SameUp(s, t);
    SameDown(s, t);
    SameReturn(s, t);
  }

  lemma IdleProxy(s: System, b: S.Action)
    requires PartsInv(s) && Enabled(s, Proxy(b)) && !S.Delivers(s.proxy, b) && !b.Receive?
    ensures Rank(Next(s, Proxy(b))) == Rank(s)
  {
    hide PartsInv, Steady, HopInv, ClientLoad, ServerLoad, WorkerLoad, Flatten, S.Next, Allowed, S.Delivers;
    var t := Next(s, Proxy(b));
    PartsOf(s);
    SteadyInv(s.proxy);
    ServerIdle(s.proxy, b);
    SameClients(s, t);
    SameUp(s, t);
    SamePool(s, t);
    SameDown(s, t);
    SameReturn(s, t);
  }

  /** A WRITE event with nothing to write or that writes nothing, a worker's wake-up to an empty queue, a new client,
      a new upstream connection: none of them adds to the work left. */
  lemma IdleKeepsRank(s: System, a: Action)
    requires Inv(s) && Enabled(s, a) && !Delivers(s, a) && !NewInput(a)
    ensures Rank(Next(s, a)) == Rank(s)
  {
    hide PartsInv, UpInv, LinkInv, HandInv, DownInv, Enabled, Next, Rank;
    match a
    case HopStep(i, b) => EnabledHop(s, i, b); IdleHop(s, i, b);
    case Connect(i, k) => IdleConnect(s, i, k);
    case Target(b) => IdleTarget(s, b);
    case Work(i) => IdleWork(s, i);
    case Proxy(b) => IdleProxy(s, b);
  }

  lemma EnabledHop(s: System, i: nat, b: C.Action)
    requires Enabled(s, HopStep(i, b))
    ensures i < |s.hops|
  {
  }

  // ---- Every behaviour that keeps delivering finishes --------------------------------------------

  /** What a run from the start leads to; and no more frames are cut by the proxy and not yet echoed by the target
      than an int counts. */
  ghost predicate Ready(s: System) {
    Inv(s) && Matched(s) && |s.proxy.cut| - |s.target.calls.log| <= INT_MAX
  }

  lemma {:induction false} RunKeepsMatched(s: System, run: seq<Action>, t: System)
    requires Inv(s) && Matched(s) && Follows(s, run, t)
    ensures Matched(t)
    decreases |run|
  {
    hide Inv, Matched, Enabled, Next;
    if run != [] {
      NextKeepsInv(s, run[0]);
      NextKeepsMatched(s, run[0]);
      RunKeepsMatched(Next(s, run[0]), run[1..], t);
    }
  }

  /** The invariants the results below rest on hold after every run from the start. */
  lemma ReachableStates(n: nat, workers: nat, run: seq<Action>, s: System)
    requires n > 0 && Follows(Init(n, workers), run, s)
    ensures Inv(s) && Matched(s)
  {
    hide Inv, Matched, Enabled, Next, Init;
    InitInv(n, workers);
    InitMatched(n, workers);
    RunKeepsInv(Init(n, workers), run, s);
    RunKeepsMatched(Init(n, workers), run, s);
  }

  /** The proxy still has the clients of s, and has received from them what it had in s. */
  ghost predicate SameInput(s: System, t: System) {
    && t.proxy.cut == s.proxy.cut && |s.target.calls.log| <= |t.target.calls.log|
    && |t.pool.threads| == |s.pool.threads|
    && forall k | k in s.proxy.table :: k in t.proxy.table && t.proxy.table[k].chunks == s.proxy.table[k].chunks
  }

  lemma ProxyKeepsInput(s: System, b: S.Action)
    requires PartsInv(s) && Enabled(s, Proxy(b)) && !b.Receive?
    ensures SameInput(s, Next(s, Proxy(b)))
  {
    hide PartsInv, S.Next, Allowed, AllEcho, Steady, HopInv;
    PartsOf(s);
    StepGrows(s.proxy, b);
    ServerKeepsChunks(s.proxy, b);
  }

  lemma ServerKeepsChunks(s: S.Server, b: S.Action)
    requires Steady(s) && Allowed(s, b) && !b.Receive?
    ensures forall k | k in s.table :: k in S.Next(s, b).table && S.Next(s, b).table[k].chunks == s.table[k].chunks
  {
    hide Steady, Write, Enqueue;
  }

  lemma StepKeepsInput(s: System, a: Action)
    requires PartsInv(s) && Enabled(s, a) && !NewInput(a)
    ensures SameInput(s, Next(s, a))
  {
    hide PartsInv, Drain, Frames, Flatten, UnwrapFrame, WrapFrame, W.Step;
    NextKeepsWorkers(s, a);
    if a.Proxy? {
      ProxyKeepsInput(s, a.a);
    } else if a.Target? {
      StepGrows(s.target, a.a);
    }
  }

  lemma StepKeepsReady(s: System, a: Action)
    requires Ready(s) && Enabled(s, a) && !NewInput(a)
    ensures Ready(Next(s, a)) && SameInput(s, Next(s, a))
  {
    PartsHold(s);
    StepKeepsInput(s, a);
    hide PartsInv, UpInv, LinkInv, HandInv, DownInv, Matched, Enabled, Next;
    NextKeepsInv(s, a);
    NextKeepsMatched(s, a);
  }

  lemma PartsHold(s: System)
    requires Inv(s)
    ensures PartsInv(s)
  {
  }

  /** No deadlock: with every upstream client that is used accepted by the target, and at most a million frames under
      way on any path, as long as anything is under way some step carries it onwards. */
  lemma ReadyMoves(s: System) returns (a: Action)
    requires Inv(s) && Matched(s) && !Quiet(s) && FewUnderWay(s)
    requires forall i | 0 <= i < |s.hops| :: Reached(s, i)
    ensures Enabled(s, a) && Delivers(s, a)
  {
    hide Inv, Matched, Quiet, Full, NoneFull, FewUnderWay, Reached;
    NothingFull(s);
    a := NoDeadlock(s);
  }

  /** One instant of a behaviour: any step but new input from the clients, or none. */
  ghost predicate Goes(s: System, a: Action, t: System) {
    t == s || (Enabled(s, a) && !NewInput(a) && t == Next(s, a))
  }

  ghost predicate Behaviour(f: nat -> System, g: nat -> Action) {
    forall i: nat :: Goes(f(i), g(i), f(i + 1))
  }

  /** A step that carries data onwards, or nothing left to carry. */
  ghost predicate DeliversAt(s: System, a: Action, t: System) {
    Quiet(s) || (Enabled(s, a) && Delivers(s, a) && t == Next(s, a))
  }

  ghost predicate At(f: nat -> System, g: nat -> Action, i: nat) {
    DeliversAt(f(i), g(i), f(i + 1))
  }

  ghost predicate DeliversFrom(f: nat -> System, g: nat -> Action, i: nat) {
    exists j: nat :: j >= i && At(f, g, j)
  }

  /** At every instant something is yet to be carried onwards, if there is anything left. */
  ghost predicate KeepsDelivering(f: nat -> System, g: nat -> Action) {
    forall i: nat :: DeliversFrom(f, g, i)
  }

  ghost predicate NotAbove(r: seq<nat>, q: seq<nat>)
    requires |r| == |q|
  {
    r == q || Below(r, q)
  }

  lemma BelowTransitive(r: seq<nat>, q: seq<nat>, p: seq<nat>)
    requires |r| == |q| == |p| && Below(r, q) && NotAbove(q, p)
    ensures Below(r, p)
  {
    if q != p {
      var i :| 0 <= i < |r| && r[i] < q[i] && forall j | 0 <= j < i :: r[j] == q[j];
      var l :| 0 <= l < |q| && q[l] < p[l] && forall j | 0 <= j < l :: q[j] == p[j];
      BelowAt(r, p, if i < l then i else l);
    }
  }

  lemma WorkersFit(s: System)
    requires Ready(s)
    ensures forall i | 0 <= i < |s.pool.threads| :: |s.pool.threads[i].queue| <= INT_MAX
  {
    hide Inv, Matched;
    forall i | 0 <= i < |s.pool.threads| ensures |s.pool.threads[i].queue| <= INT_MAX {
      WorkerBound(s, i);
    }
  }

  /** One instant never raises the rank. */
  lemma GoesOn(s: System, a: Action, t: System)
    requires Ready(s) && Goes(s, a, t)
    ensures Ready(t) && SameInput(s, t) && NotAbove(Rank(t), Rank(s))
  {
    hide Inv, Matched, Enabled, Delivers, Next, Rank, Below, Quiet;
    if t != s {
      StepKeepsReady(s, a);
      if Delivers(s, a) {
        WorkersFit(s);
        StepLowersRank(s, a);
      } else {
        IdleKeepsRank(s, a);
      }
    }
  }

  lemma {:induction false} GoesFar(f: nat -> System, g: nat -> Action, m: nat, n: nat)
    requires m <= n && Ready(f(m)) && Behaviour(f, g)
    ensures Ready(f(n)) && SameInput(f(m), f(n)) && NotAbove(Rank(f(n)), Rank(f(m)))
    decreases n - m
  {
    hide Ready, Rank, Below;
    if m < n {
      GoesFar(f, g, m, n - 1);
      assert Goes(f(n - 1), g(n - 1), f(n - 1 + 1));
      GoesOn(f(n - 1), g(n - 1), f(n));
      if Rank(f(n)) != Rank(f(n - 1)) {
        BelowTransitive(Rank(f(n)), Rank(f(n - 1)), Rank(f(m)));
      }
    }
  }

  /** The order on ranks as a decreases clause reads it. */
  lemma LowerRank(s: System, t: System)
    requires Below(Rank(t), Rank(s))
    ensures
      || R0(t) < R0(s) || (R0(t) == R0(s) && (R1(t) < R1(s) || (R1(t) == R1(s) && (R2(t) < R2(s) || (R2(t) == R2(s) &&
        (R3(t) < R3(s) || (R3(t) == R3(s) && (R4(t) < R4(s) || (R4(t) == R4(s) && (R5(t) < R5(s) || (R5(t) == R5(s) &&
        (R6(t) < R6(s) || (R6(t) == R6(s) && (R7(t) < R7(s) || (R7(t) == R7(s) && R8(t) < R8(s))))))))))))))))
  {
    hide R0, R1, R2, R3, R4, R5, R6, R7, R8;
    var r, q := Rank(t), Rank(s);
    var i :| 0 <= i < |r| && r[i] < q[i] && forall j | 0 <= j < i :: r[j] == q[j];
    assert 0 < i ==> r[0] == q[0];
    assert 1 < i ==> r[1] == q[1];
    assert 2 < i ==> r[2] == q[2];
    assert 3 < i ==> r[3] == q[3];
    assert 4 < i ==> r[4] == q[4];
    assert 5 < i ==> r[5] == q[5];
    assert 6 < i ==> r[6] == q[6];
    assert 7 < i ==> r[7] == q[7];
  }

  lemma DeliveredRank(s: System, a: Action, t: System)
    requires Ready(s) && DeliversAt(s, a, t) && !Quiet(s)
    ensures Below(Rank(t), Rank(s))
  {
    hide Inv, Matched, Enabled, Delivers, Next, Rank, Below, Quiet;
    WorkersFit(s);
    StepLowersRank(s, a);
  }

  lemma {:induction false} ReachesQuiet(f: nat -> System, g: nat -> Action, m: nat) returns (n: nat)
    requires Ready(f(m)) && Behaviour(f, g) && KeepsDelivering(f, g)
    ensures Ready(f(n)) && Quiet(f(n)) && SameInput(f(m), f(n))
    decreases R0(f(m)), R1(f(m)), R2(f(m)), R3(f(m)), R4(f(m)), R5(f(m)), R6(f(m)), R7(f(m)), R8(f(m))
  {
    hide Ready, Quiet, DeliversAt, Goes, Rank, Below, R0, R1, R2, R3, R4, R5, R6, R7, R8;
    assert DeliversFrom(f, g, m);
    n :| n >= m && At(f, g, n);
    GoesFar(f, g, m, n);
    if !Quiet(f(n)) {
      assert Goes(f(n), g(n), f(n + 1));
      GoesOn(f(n), g(n), f(n + 1));
      DeliveredRank(f(n), g(n), f(n + 1));
      BelowTransitive(Rank(f(n + 1)), Rank(f(n)), Rank(f(m)));
      LowerRank(f(m), f(n + 1));
      n := ReachesQuiet(f, g, n + 1);
    }
  }

  /** Client k has been written back exactly these frames, in some order; in the given one if at most one worker
      echoes. */
  ghost predicate WroteBack(s: System, k: Key, frames: seq<bytes>)
    requires k in s.proxy.table
  {
    exists echoed: seq<bytes> ::
      && s.proxy.table[k].pipe.written == Flatten(echoed) && multiset(echoed) == multiset(frames)
      && (Ordered(s) ==> echoed == frames)
  }

  /** Liveness. Take any behaviour from a reachable state in which the clients send nothing more: the threads and
      connections take turns in any way, the bytes are chunked in any way, idle events happen whenever they like, new
      clients and upstream connections are accepted. If delivering steps do not stop happening while there is
      something left to deliver, the system comes to rest, and then each client has been written back exactly the
      frames the proxy had cut from what it had received from that client. */
  lemma EveryBehaviourFinishes(f: nat -> System, g: nat -> Action) returns (n: nat)
    requires Ready(f(0)) && Behaviour(f, g) && KeepsDelivering(f, g)
    ensures Quiet(f(n))
    ensures forall k | k in f(0).proxy.table :: k in f(n).proxy.table && WroteBack(f(n), k, ClientFrames(f(0), k))
  {
    hide Inv, Matched, Quiet, QuietPath, Flatten, Frames, FeedAll, Behaviour, KeepsDelivering;
    n := ReachesQuiet(f, g, 0);
    InvParts(f(n));
    forall k | k in f(0).proxy.table ensures k in f(n).proxy.table && WroteBack(f(n), k, ClientFrames(f(0), k)) {
      QuietHasQuietPaths(f(n), k);
      var echoed := EchoComplete(f(n), k);
    }
  }
}
