/** The two halves of a deferred send, shared by CTcpServer and CTcpClient: calls queued under a spinlock for the
    loop thread, and a per-connection queue of buffers drained by partial writes. */
module SendPath {
  import opened Wire
  import opened Wrappers

  const WRITE_QUEUE_MAX_SIZE: nat := 1_000_000

  // ---- m_Functions and __AsyncCallback ---------------------------------------------------------

  /** Where the loop thread is: outside __AsyncCallback, in it before the swap, or running the swapped batch. */
  datatype Phase = Idle | Entered | Draining

  /** `log` lists every call in spinlock order; `done` those already run. */
  datatype Deferred<T> = Deferred(
    functions: seq<T>, pending: bool, phase: Phase, batch: seq<T>, log: seq<T>, done: seq<T>)

  function NoCalls<T>(): Deferred<T> {
    Deferred([], false, Idle, [], [], [])
  }

  /** Under the spinlock: push the call and wake the loop. */
  function Submit<T>(d: Deferred<T>, x: T): Deferred<T> {
    d.(functions := d.functions + [x], pending := true, log := d.log + [x])
  }

  /** Several calls pushed one after the other. */
  function SubmitAll<T>(d: Deferred<T>, xs: seq<T>): Deferred<T> {
    if xs == [] then d else d.(functions := d.functions + xs, pending := true, log := d.log + xs)
  }

  lemma SubmitAllMore<T>(d: Deferred<T>, xs: seq<T>, x: T)
    ensures SubmitAll(d, xs + [x]) == Submit(SubmitAll(d, xs), x)
  {
    assert d.functions + (xs + [x]) == d.functions + xs + [x];
    assert d.log + (xs + [x]) == d.log + xs + [x];
  }

  predicate CanBegin<T>(d: Deferred<T>) { d.phase == Idle && d.pending }

  /** libev clears the notification before it enters the callback. */
  function Begin<T>(d: Deferred<T>): Deferred<T>
    requires CanBegin(d)
  {
    d.(pending := false, phase := Entered)
  }

  predicate CanSwap<T>(d: Deferred<T>) { d.phase == Entered }

  function Swap<T>(d: Deferred<T>): Deferred<T>
    requires CanSwap(d)
  {
    d.(functions := [], phase := Draining, batch := d.functions)
  }

  predicate CanTake<T>(d: Deferred<T>) { d.phase == Draining && d.batch != [] }

  /** Run the next call of the batch. */
  function Take<T>(d: Deferred<T>): Deferred<T>
    requires CanTake(d)
  {
    d.(batch := d.batch[1..], done := d.done + [d.batch[0]])
  }

  predicate CanEnd<T>(d: Deferred<T>) { d.phase == Draining && d.batch == [] }

  function End<T>(d: Deferred<T>): Deferred<T>
    requires CanEnd(d)
  {
    d.(phase := Idle)
  }

  /** No call is lost or reordered, and a queued call always has a wake-up on its way. */
  ghost predicate DeferredInv<T>(d: Deferred<T>) {
    && d.log == d.done + d.batch + d.functions
    && (d.batch != [] ==> d.phase == Draining)
    && (d.functions != [] ==> d.pending || d.phase == Entered)
  }

  lemma SubmitKeepsInv<T>(d: Deferred<T>, x: T)
    requires DeferredInv(d)
    ensures DeferredInv(Submit(d, x))
  {
    assert d.done + d.batch + d.functions + [x] == d.done + d.batch + (d.functions + [x]);
  }

  lemma CallbackKeepsInv<T>(d: Deferred<T>)
    requires DeferredInv(d)
    ensures CanBegin(d) ==> DeferredInv(Begin(d))
    ensures CanSwap(d) ==> DeferredInv(Swap(d))
    ensures CanTake(d) ==> DeferredInv(Take(d))
    ensures CanEnd(d) ==> DeferredInv(End(d))
  {
    if CanSwap(d) {
      assert d.done + [] + d.functions == d.done + d.functions + [];
    }
    if CanTake(d) {
      assert d.batch == [d.batch[0]] + d.batch[1..];
      assert d.done + d.batch == d.done + [d.batch[0]] + d.batch[1..];
    }
  }

  /** What can happen to the lists while a batch runs: None takes the next call, Some(x) is a Send by any thread,
      a handler running inside the batch included. */
  function Takes<T>(run: seq<Option<T>>): nat {
    if run == [] then 0 else Takes(run[..|run| - 1]) + if run[|run| - 1].None? then 1 else 0
  }

  function Sends<T>(run: seq<Option<T>>): seq<T> {
    if run == [] then []
    else Sends(run[..|run| - 1]) + if run[|run| - 1].None? then [] else [run[|run| - 1].value]
  }

  function DuringBatch<T>(d: Deferred<T>, run: seq<Option<T>>): Deferred<T> {
    if run == [] then d
    else
      var e := DuringBatch(d, run[..|run| - 1]);
      match run[|run| - 1]
      case None => if CanTake(e) then Take(e) else e
      case Some(x) => Submit(e, x)
  }

  /** A batch is fixed by the swap: sends made while it runs neither prolong it nor join it. */
  lemma {:induction false} BatchIsFixed<T>(d: Deferred<T>, run: seq<Option<T>>)
    requires d.phase == Draining && Takes(run) <= |d.batch|
    ensures var e := DuringBatch(d, run);
      && e.phase == Draining
      && e.batch == d.batch[Takes(run)..]
      && e.done == d.done + d.batch[..Takes(run)]
      && e.functions == d.functions + Sends(run)
  {
    if run == [] {
      assert d.batch[..0] == [];
      assert d.functions + [] == d.functions;
    } else {
      var init := run[..|run| - 1];
      BatchIsFixed(d, init);
      var n := Takes(init);
      if run[|run| - 1].None? {
        assert d.batch[..n] + [d.batch[n]] == d.batch[..n + 1];
      }
    }
  }

  /** The calls that arrive with the next n steps from the i-th on. */
  function Arrivals<T>(others: nat -> seq<T>, i: nat, n: nat): seq<T>
    decreases n
  {
    if n == 0 then [] else others(i) + Arrivals(others, i + 1, n - 1)
  }

  // ---- m_WriteQueue and the WRITE event --------------------------------------------------------

  /** COutputBuffer: a private copy of the bytes to send and how many of them have been written. */
  datatype Buffer = Buffer(data: bytes, pos: nat)

  predicate ValidBuffer(b: Buffer) { b.pos <= |b.data| }

  /** GetDataPos() and GetBytes() together: the bytes still to write. */
  function Rest(b: Buffer): bytes
    requires ValidBuffer(b)
  {
    b.data[b.pos..]
  }

  /** `written` is everything write() has accepted. */
  datatype Pipe = Pipe(queue: seq<Buffer>, wantWrite: bool, written: bytes)

  predicate ValidQueue(q: seq<Buffer>) {
    q == [] || (ValidBuffer(q[0]) && ValidQueue(q[1..]))
  }

  function Unwritten(q: seq<Buffer>): bytes
    requires ValidQueue(q)
  {
    if q == [] then [] else Rest(q[0]) + Unwritten(q[1..])
  }

  predicate Full(p: Pipe) { |p.queue| > WRITE_QUEUE_MAX_SIZE }

  function Enqueue(p: Pipe, data: bytes): Pipe {
    p.(queue := p.queue + [Buffer(data, 0)], wantWrite := true)
  }

  predicate CanWrite(p: Pipe, n: nat) {
    p.queue != [] ==> ValidBuffer(p.queue[0]) && n <= |Rest(p.queue[0])|
  }

  /** A WRITE event in which write() accepts n bytes of the front buffer. */
  function Write(p: Pipe, n: nat): Pipe
    requires CanWrite(p, n)
  {
    if p.queue == [] then p.(wantWrite := false)
    else
      var b := p.queue[0];
      var q := if b.pos + n == |b.data| then p.queue[1..] else [b.(pos := b.pos + n)] + p.queue[1..];
      Pipe(q, p.wantWrite && q != [], p.written + Rest(b)[..n])
  }

  ghost predicate PipeInv(p: Pipe) {
    && ValidQueue(p.queue)
    && (p.queue != [] ==> p.wantWrite)
  }

  /** Everything that has gone into the pipe, in order. */
  ghost function Stream(p: Pipe): bytes
    requires ValidQueue(p.queue)
  {
    p.written + Unwritten(p.queue)
  }

  lemma {:induction false} UnwrittenAppend(q: seq<Buffer>, b: Buffer)
    requires ValidQueue(q) && ValidBuffer(b)
    ensures ValidQueue(q + [b]) && Unwritten(q + [b]) == Unwritten(q) + Rest(b)
  {
    if q == [] {
      assert q + [b] == [b];
    } else {
      UnwrittenAppend(q[1..], b);
      assert (q + [b])[1..] == q[1..] + [b];
      assert Rest(q[0]) + Unwritten(q[1..]) + Rest(b) == Rest(q[0]) + (Unwritten(q[1..]) + Rest(b));
    }
  }

  lemma EnqueueStream(p: Pipe, data: bytes)
    requires PipeInv(p)
    ensures PipeInv(Enqueue(p, data)) && Stream(Enqueue(p, data)) == Stream(p) + data
  {
    UnwrittenAppend(p.queue, Buffer(data, 0));
    assert p.written + Unwritten(p.queue) + data == p.written + (Unwritten(p.queue) + data);
  }

  lemma WriteStream(p: Pipe, n: nat)
    requires PipeInv(p) && CanWrite(p, n)
    ensures PipeInv(Write(p, n)) && Stream(Write(p, n)) == Stream(p)
    ensures p.written <= Write(p, n).written
  {
    if p.queue != [] {
      var b, q := p.queue[0], p.queue[1..];
      FrontStream(p.written, b, n, Unwritten(q));
      if b.pos + n < |b.data| {
        var b' := b.(pos := b.pos + n);
        assert ([b'] + q)[1..] == q;
        assert Unwritten([b'] + q) == Rest(b') + Unwritten(q);
      }
    }
  }

  lemma EnqueueEffect(p: Pipe, data: bytes)
    ensures var q := Enqueue(p, data);
      q.queue == p.queue + [Buffer(data, 0)] && q.wantWrite && q.written == p.written
  {
  }

  /** A WRITE event that write() answers with n: exactly n bytes more are written, the front buffer goes exactly if they
      were all of it, and WRITE events stay wanted exactly if something is still queued. */
  lemma WriteEffect(p: Pipe, n: nat)
    requires PipeInv(p) && CanWrite(p, n)
    ensures var q := Write(p, n);
      && |q.written| == |p.written| + (if p.queue == [] then 0 else n)
      && |q.queue| == |p.queue| - (if p.queue != [] && n == |p.queue[0].data| - p.queue[0].pos then 1 else 0)
      && (q.wantWrite <==> q.queue != [])
  {
  }

  lemma FrontStream(written: bytes, b: Buffer, n: nat, tail: bytes)
    requires ValidBuffer(b) && n <= |Rest(b)|
    ensures written + Rest(b)[..n] + (Rest(b.(pos := b.pos + n)) + tail) == written + (Rest(b) + tail)
    ensures n == |Rest(b)| ==> written + Rest(b)[..n] + tail == written + (Rest(b) + tail)
  {
    assert Rest(b.(pos := b.pos + n)) == Rest(b)[n..];
    assert Rest(b) == Rest(b)[..n] + Rest(b)[n..];
  }

  /** The queue holds the last of the buffers sent, and only its front can be partly written. */
  ghost predicate Trails(queue: seq<Buffer>, sent: seq<bytes>) {
    && |queue| <= |sent|
    && forall j | 0 <= j < |queue| ::
         && queue[j].data == sent[|sent| - |queue| + j]
         && (queue[j].pos == 0 || (j == 0 && queue[j].pos < |queue[j].data|))
  }

  lemma EnqueueTrails(p: Pipe, data: bytes, sent: seq<bytes>)
    requires Trails(p.queue, sent)
    ensures Trails(Enqueue(p, data).queue, sent + [data])
  {
  }

  lemma WriteTrails(p: Pipe, n: nat, sent: seq<bytes>)
    requires CanWrite(p, n) && Trails(p.queue, sent)
    ensures Trails(Write(p, n).queue, sent)
  {
  }

  lemma {:induction false} TailUnwritten(queue: seq<Buffer>, sent: seq<bytes>)
    requires Trails(queue, sent) && ValidQueue(queue) && (queue != [] ==> queue[0].pos == 0)
    ensures Unwritten(queue) == Flatten(sent[|sent| - |queue|..])
  {
    if queue != [] {
      TrailsTail(queue, sent);
      hide Trails;
      TailUnwritten(queue[1..], sent);
      FlattenFrom(sent, |sent| - |queue|);
    }
  }

  lemma TrailsTail(queue: seq<Buffer>, sent: seq<bytes>)
    requires Trails(queue, sent) && queue != []
    ensures |queue| <= |sent| && queue[0].data == sent[|sent| - |queue|]
    ensures Trails(queue[1..], sent) && (queue[1..] != [] ==> queue[1..][0].pos == 0)
  {
  }

  lemma FlattenFrom(parts: seq<bytes>, n: nat)
    requires n < |parts|
    ensures Flatten(parts[n..]) == parts[n] + Flatten(parts[n + 1..])
  {
    assert parts[n..][1..] == parts[n + 1..];
  }

  lemma SentWithin(sent: seq<bytes>, log: seq<bytes>, r: nat)
    requires sent <= log && (forall i | 0 <= i < |log| :: log[i] != [])
    requires r <= |log| && |Flatten(log[..r])| <= |Flatten(sent)|
    ensures r <= |sent|
  {
    assert log[..|sent|] == sent;
    if r > |sent| {
      LongerFlatten(log, |sent|);
      FlattenPrefix(log[..|sent| + 1], log[..r]);
    }
  }

  lemma StillQueued(p: Pipe, sent: seq<bytes>)
    requires PipeInv(p) && Trails(p.queue, sent) && Stream(p) == Flatten(sent)
    requires p.queue != [] && p.queue[0].data != []
    ensures |p.written| < |Flatten(sent[..|sent| - |p.queue| + 1])|
  {
    TailUnwritten(p.queue[1..], sent);
    SplitFlatten(sent, |sent| - |p.queue| + 1);
  }

  /** A queue of non-empty buffers holds none that has been written completely. */
  lemma WrittenLeaves(p: Pipe, sent: seq<bytes>, log: seq<bytes>, r: nat)
    requires PipeInv(p) && Trails(p.queue, sent) && Stream(p) == Flatten(sent) && sent <= log
    requires forall i | 0 <= i < |log| :: log[i] != []
    requires r <= |log| && |Flatten(log[..r])| <= |p.written|
    ensures |p.queue| <= |log| - r
  {
    SentWithin(sent, log, r);
    var n := |sent| - |p.queue|;
    if r > n {
      assert p.queue[0].data == log[n] && log[..n + 1] == sent[..n + 1];
      FlattenPrefix(log[..n + 1], log[..r]);
      StillQueued(p, sent);
    }
  }

  lemma LongerFlatten(log: seq<bytes>, n: nat)
    requires n < |log| && log[n] != []
    ensures |Flatten(log[..n + 1])| > |Flatten(log[..n])|
  {
    assert log[..n + 1] == log[..n] + [log[n]];
    FlattenSingle(log[..n], log[n]);
  }

  lemma SplitFlatten(parts: seq<bytes>, n: nat)
    requires n <= |parts|
    ensures |Flatten(parts)| == |Flatten(parts[..n])| + |Flatten(parts[n..])|
  {
    assert parts == parts[..n] + parts[n..];
    FlattenAppend(parts[..n], parts[n..]);
  }

  /** Work left in the pipe. */
  ghost function Work(p: Pipe): nat
    requires ValidQueue(p.queue)
  {
    |Unwritten(p.queue)| + |p.queue|
  }

  /** A write event that gets somewhere: at least one byte accepted, or an empty buffer dropped. */
  predicate Progress(p: Pipe, n: nat) {
    p.queue != [] && CanWrite(p, n) && (n > 0 || Rest(p.queue[0]) == [])
  }

  lemma ProgressDecreasesWork(p: Pipe, n: nat)
    requires PipeInv(p) && Progress(p, n)
    ensures PipeInv(Write(p, n)) && Work(Write(p, n)) < Work(p)
  {
    WriteStream(p, n);
    assert |Stream(Write(p, n))| == |Stream(p)|;
  }

  ghost predicate ProgressRun(p: Pipe, ns: seq<nat>)
    decreases |ns|
  {
    ns == [] || (Progress(p, ns[0]) && ProgressRun(Write(p, ns[0]), ns[1..]))
  }

  function AfterWrites(p: Pipe, ns: seq<nat>): Pipe
    requires ProgressRun(p, ns)
    decreases |ns|
  {
    if ns == [] then p else AfterWrites(Write(p, ns[0]), ns[1..])
  }

  /** So only finitely many such events fit between two sends, and once they run out the queue is empty and
      everything has been written. */
  lemma {:induction false} DrainTerminates(p: Pipe, ns: seq<nat>)
    requires PipeInv(p) && ProgressRun(p, ns)
    ensures var q := AfterWrites(p, ns);
      && PipeInv(q) && |ns| + Work(q) <= Work(p) && Stream(q) == Stream(p)
      && ((forall n: nat :: !Progress(q, n)) <==> q.queue == [])
      && (q.queue == [] ==> q.written == Stream(p))
    decreases |ns|
  {
    if ns == [] {
      if p.queue != [] {
        assert Progress(p, |Rest(p.queue[0])|);
      }
    } else {
      ProgressDecreasesWork(p, ns[0]);
      WriteStream(p, ns[0]);
      DrainTerminates(Write(p, ns[0]), ns[1..]);
    }
  }
}
