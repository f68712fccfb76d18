/** How much work is left in one server, client or worker, and that each delivering step leaves less. */
module DeliveryMeasure {
  import opened Wire
  import opened SocketKey
  import opened KeyedLog
  import opened SendPath
  import opened SteadyServer
  import S = ServerSteps
  import C = ClientSteps
  import W = WorkerPool

  // ---- The deferred calls ----------------------------------------------------------------------

  /** A call costs its bytes and a constant that shrinks as it moves from m_Functions to the batch to the queue. */
  function CallsLoad(calls: seq<bytes>, each: nat): nat {
    if calls == [] then 0 else |calls[0]| + each + CallsLoad(calls[1..], each)
  }

  function PhaseLoad<T>(d: Deferred<T>): nat {
    (if d.pending then 4 else 0) + match d.phase case Idle => 0 case Entered => 3 case Draining => 1
  }

  lemma {:induction false} CheaperLater(calls: seq<bytes>, each: nat, less: nat)
    requires less <= each
    ensures CallsLoad(calls, less) <= CallsLoad(calls, each)
  {
    if calls != [] {
      CheaperLater(calls[1..], each, less);
    }
  }

  function BytesOf(log: seq<Entry>): seq<bytes> {
    if log == [] then [] else [log[0].1] + BytesOf(log[1..])
  }

  lemma PayloadsTail(log: seq<Entry>)
    requires log != []
    ensures BytesOf(log) != [] && BytesOf(log)[0] == log[0].1 && BytesOf(log)[1..] == BytesOf(log[1..])
  {
  }

  ghost function PipeLoad(p: Pipe): nat {
    if ValidQueue(p.queue) then Work(p) else 0
  }

  lemma EnqueueLoad(p: Pipe, data: bytes)
    requires PipeInv(p)
    ensures PipeInv(Enqueue(p, data)) && PipeLoad(Enqueue(p, data)) == PipeLoad(p) + |data| + 1
  {
    EnqueueStream(p, data);
    assert |Stream(Enqueue(p, data))| == |Stream(p)| + |data|;
  }

  // ---- A client --------------------------------------------------------------------------------

  ghost function ClientLoad(c: C.Client): nat {
    PhaseLoad(c.calls) + CallsLoad(c.calls.functions, 3) + CallsLoad(c.calls.batch, 2) + PipeLoad(c.pipe)
  }

  lemma ClientProgress(c: C.Client, b: C.Action)
    requires C.Inv(c) && C.Enabled(c, b) && C.Delivers(c, b)
    ensures ClientLoad(C.Next(c, b)) < ClientLoad(c)
  {
    match b
    case SwapAsync =>
      assert c.calls.batch == [];
      CheaperLater(c.calls.functions, 3, 2);
    case TakeAsync =>
      if !Full(c.pipe) {
        EnqueueLoad(c.pipe, c.calls.batch[0]);
      }
    case WriteReady(n) => ProgressDecreasesWork(c.pipe, n);
    case _ =>
  }

  // ---- A server --------------------------------------------------------------------------------

  ghost function TableLoad(table: map<Key, S.Conn>): nat
    decreases |table|
  {
    if table == map[] then 0
    else
      var k :| k in table;
      PipeLoad(table[k].pipe) + TableLoad(table - {k})
  }

  /** The choice of the first client does not matter. */
  lemma {:induction false} TableLoadAt(table: map<Key, S.Conn>, k: Key)
    requires k in table
    ensures TableLoad(table) == PipeLoad(table[k].pipe) + TableLoad(table - {k})
    decreases |table|
  {
    var l :| l in table && TableLoad(table) == PipeLoad(table[l].pipe) + TableLoad(table - {l});
    if l != k {
      assert (table - {l}) - {k} == (table - {k}) - {l};
      TableLoadAt(table - {l}, k);
      TableLoadAt(table - {k}, l);
    }
  }

  lemma TableLoadSet(table: map<Key, S.Conn>, k: Key, c: S.Conn)
    requires k in table
    ensures TableLoad(table[k := c]) + PipeLoad(table[k].pipe) == TableLoad(table) + PipeLoad(c.pipe)
  {
    TableLoadAt(table, k);
    TableLoadAt(table[k := c], k);
    assert table[k := c] - {k} == table - {k};
  }

  ghost function ServerLoad(s: S.Server): nat {
    PhaseLoad(s.calls) + CallsLoad(BytesOf(s.calls.functions), 3) + CallsLoad(BytesOf(s.calls.batch), 2) + TableLoad(s.table)
  }

  lemma TakeProgress(s: S.Server)
    requires S.Inv(s) && Allowed(s, S.TakeAsync)
    ensures ServerLoad(S.DoTake(s)) < ServerLoad(s)
  {
    var (k, data) := s.calls.batch[0];
    PayloadsTail(s.calls.batch);
    if k in s.table {
      assert S.ConnSends(s, k);
      EnqueueLoad(s.table[k].pipe, data);
      TableLoadSet(s.table, k, s.table[k].(pipe := Enqueue(s.table[k].pipe, data)));
    }
  }

  lemma WriteProgress(s: S.Server, k: Key, n: nat)
    requires S.Inv(s) && k in s.table && Progress(s.table[k].pipe, n)
    ensures ServerLoad(S.SetPipe(s, k, Write(s.table[k].pipe, n))) < ServerLoad(s)
  {
    assert S.ConnSends(s, k);
    var p := Write(s.table[k].pipe, n);
    ProgressDecreasesWork(s.table[k].pipe, n);
    TableLoadSet(s.table, k, s.table[k].(pipe := p));
  }

  lemma SwapProgress(s: S.Server)
    requires DeferredInv(s.calls) && CanSwap(s.calls)
    ensures ServerLoad(s.(calls := Swap(s.calls))) < ServerLoad(s)
  {
    CheaperLater(BytesOf(s.calls.functions), 3, 2);
  }

  lemma ServerProgress(s: S.Server, b: S.Action)
    requires S.Inv(s) && Allowed(s, b) && S.Delivers(s, b)
    ensures ServerLoad(S.Next(s, b)) < ServerLoad(s)
  {
    hide S.Inv, TableLoad, CallsLoad, BytesOf, DeferredInv;
    match b
    case WriteReady(k, n) => WriteProgress(s, k, n);
    case TakeAsync => TakeProgress(s);
    case SwapAsync => CallsInv(s); SwapProgress(s);
    case _ =>
  }

  /** A write event that gets nowhere. */
  lemma IdleWrite(p: Pipe, n: nat)
    requires PipeInv(p) && CanWrite(p, n) && !Progress(p, n)
    ensures var q := Write(p, n); PipeLoad(q) == PipeLoad(p) && q.written == p.written
  {
    if p.queue != [] {
      assert [p.queue[0]] + p.queue[1..] == p.queue;
      assert p.queue[0].(pos := p.queue[0].pos + n) == p.queue[0];
      assert p.written + Rest(p.queue[0])[..n] == p.written;
    }
  }

  lemma ClientIdle(c: C.Client, b: C.Action)
    requires C.Inv(c) && C.Enabled(c, b) && !C.Delivers(c, b) && !b.Send? && !b.Reconnect?
    ensures var d := C.Next(c, b); ClientLoad(d) == ClientLoad(c) && d.pipe.written == c.pipe.written
  {
    IdleWrite(c.pipe, b.n);
  }

  /** The connections of s, with their streams, are in t. */
  ghost predicate SameStreams(s: S.Server, t: S.Server) {
    forall k | k in s.table ::
      k in t.table && t.table[k].chunks == s.table[k].chunks && t.table[k].pipe.written == s.table[k].pipe.written
  }

  lemma AcceptIdle(s: S.Server, k: Key)
    requires k !in s.table
    ensures ServerLoad(S.DoAccept(s, k)) == ServerLoad(s) && SameStreams(s, S.DoAccept(s, k))
  {
    var t := S.DoAccept(s, k);
    TableLoadAt(t.table, k);
    assert t.table - {k} == s.table;
    hide TableLoad, CallsLoad, BytesOf;
  }

  lemma WriteIdle(s: S.Server, k: Key, n: nat)
    requires S.Inv(s) && k in s.table && CanWrite(s.table[k].pipe, n) && !Progress(s.table[k].pipe, n)
    ensures var t := S.SetPipe(s, k, Write(s.table[k].pipe, n)); ServerLoad(t) == ServerLoad(s) && SameStreams(s, t)
  {
    hide TableLoad, CallsLoad, BytesOf, Write, PipeLoad, S.Inv, PipeInv, CanWrite, Progress;
    ConnPipe(s, k);
    IdleWrite(s.table[k].pipe, n);
    TableLoadSet(s.table, k, s.table[k].(pipe := Write(s.table[k].pipe, n)));
  }

  lemma ConnPipe(s: S.Server, k: Key)
    requires S.Inv(s) && k in s.table
    ensures PipeInv(s.table[k].pipe)
  {
    assert S.ConnSends(s, k);
  }

  /** The steps of a server that carry nothing forward leave its load and its streams as they are. */
  lemma ServerIdle(s: S.Server, b: S.Action)
    requires S.Inv(s) && Allowed(s, b) && !S.Delivers(s, b) && !b.Receive?
    ensures var t := S.Next(s, b);
      ServerLoad(t) == ServerLoad(s) && t.calls == s.calls && t.cut == s.cut && SameStreams(s, t)
  {
    hide S.Inv, ServerLoad, SameStreams, Write;
    match b
    case Accept(k) => AcceptIdle(s, k);
    case WriteReady(k, n) => WriteIdle(s, k, n);
  }

  lemma CallsInv(s: S.Server)
    requires S.Inv(s)
    ensures DeferredInv(s.calls)
  {
  }

  // ---- The worker ------------------------------------------------------------------------------

  /** How far a consumer that has packets waiting is from popping one. */
  function PcLoad<P>(w: W.Thread<P>): nat {
    match w.pc
    case Popping => if w.size > 0 then 0 else 3
    case Counted => if w.size > 0 then 1 else if w.size == 0 then 3 else 4
    case Asleep => 2
    case Top => 2
    case Handling => 0
    case Exited => 0
  }

  function WorkerLoad<P>(w: W.Thread<P>): nat {
    if w.queue == [] && w.hand == [] then 0 else 8 * |w.queue| + 5 * |w.hand| + PcLoad(w)
  }

  lemma WorkerIdle<P>(w: W.Thread<P>)
    requires W.ThreadInv(w) && w.hand == [] && w.queue == []
    ensures WorkerLoad(W.Step(w)) == WorkerLoad(w) && w.pc != W.Handling
  {
  }

  lemma WorkerProgress<P>(w: W.Thread<P>)
    requires W.ThreadInv(w) && w.running && w.pc != W.Exited
    requires w.hand != [] || 0 < |w.queue| <= INT_MAX
    ensures WorkerLoad(W.Step(w)) < WorkerLoad(w)
  {
    assert |w.queue| <= INT_MAX ==> ToInt32(|w.queue|) == |w.queue|;
  }

  // ---- Sums over the hops ----------------------------------------------------------------------

  function Sum(f: nat -> nat, n: nat): nat {
    if n == 0 then 0 else f(n - 1) + Sum(f, n - 1)
  }

  lemma {:induction false} SumSame(f: nat -> nat, g: nat -> nat, n: nat)
    requires forall i | 0 <= i < n :: f(i) == g(i)
    ensures Sum(f, n) == Sum(g, n)
  {
    if n > 0 {
      SumSame(f, g, n - 1);
    }
  }

  lemma {:induction false} SumLess(f: nat -> nat, g: nat -> nat, n: nat, i: nat)
    requires i < n && f(i) < g(i) && forall j | 0 <= j < n && j != i :: f(j) == g(j)
    ensures Sum(f, n) < Sum(g, n)
  {
    if i == n - 1 {
      SumSame(f, g, n - 1);
    } else {
      SumLess(f, g, n - 1, i);
    }
  }

  lemma {:induction false} SumGrows(f: nat -> nat, g: nat -> nat, n: nat)
    requires forall i | 0 <= i < n :: f(i) <= g(i)
    ensures Sum(f, n) <= Sum(g, n)
  {
    if n > 0 {
      SumGrows(f, g, n - 1);
    }
  }

  lemma {:induction false} SumOneMore(f: nat -> nat, g: nat -> nat, n: nat, i: nat)
    requires i < n && g(i) == f(i) + 1 && forall j | 0 <= j < n && j != i :: f(j) == g(j)
    ensures Sum(g, n) == Sum(f, n) + 1
  {
    if i == n - 1 {
      SumSame(f, g, n - 1);
    } else {
      SumOneMore(f, g, n - 1, i);
    }
  }

  lemma {:induction false} SumZero(f: nat -> nat, n: nat)
    requires forall i | 0 <= i < n :: f(i) == 0
    ensures Sum(f, n) == 0
  {
    if n > 0 {
      SumZero(f, n - 1);
    }
  }
}
