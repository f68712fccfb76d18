/** CTcpClient as a state machine: the deferred send path, and a write queue that survives reconnects. */
module ClientSteps {
  import opened Wire
  import opened SendPath

  /** `sockets` records what write() accepted on each successive socket, the current one last; `accepted` records
      for each call already run whether its buffer was queued or refused for a full queue. */
  datatype Client = Client(calls: Deferred<bytes>, pipe: Pipe, sockets: seq<bytes>, accepted: seq<bool>)

  /** After Start: the wake-up has been sent and the first socket is watched for READ and WRITE. */
  const INIT := Client(NoCalls().(pending := true), Pipe([], true, []), [[]], [])

  datatype Action =
    | Send(data: bytes)     // by any thread, at any moment
    | BeginAsync | SwapAsync | TakeAsync | EndAsync
    | WriteReady(n: nat)    // a WRITE event in which write() accepts n bytes
    | Reconnect             // end of stream, recv or write error, watcher error: a new socket is opened

  predicate Enabled(c: Client, a: Action) {
    match a
    case Send(data) => true
    case BeginAsync => CanBegin(c.calls)
    case SwapAsync => CanSwap(c.calls)
    case TakeAsync => CanTake(c.calls)
    case EndAsync => CanEnd(c.calls)
    case WriteReady(n) => c.calls.phase == Idle && c.pipe.wantWrite && CanWrite(c.pipe, n)
    case Reconnect => c.calls.phase == Idle
  }

  function DoTake(c: Client): Client
    requires CanTake(c.calls)
  {
    var data, calls := c.calls.batch[0], Take(c.calls);
    if Full(c.pipe) then c.(calls := calls, accepted := c.accepted + [false])
    else c.(calls := calls, pipe := Enqueue(c.pipe, data), accepted := c.accepted + [true])
  }

  /** Sends by other threads, or by a handler, at one moment. */
  function Arrive(c: Client, sends: seq<bytes>): Client {
    c.(calls := SubmitAll(c.calls, sends))
  }

  /** The loop of __AsyncCallback over the batch; others(i) arrive after the call that is the i-th of the callback,
      counting from 1. */
  function RunCalls(c: Client, others: nat -> seq<bytes>, i: nat): Client
    requires c.calls.phase == Draining
    decreases |c.calls.batch|
  {
    if c.calls.batch == [] then c else RunCalls(Arrive(DoTake(c), others(i)), others, i + 1)
  }

  /** One whole call of __AsyncCallback; others(0) arrive before the swap. */
  function RunBatch(c: Client, others: nat -> seq<bytes>): Client
    requires CanBegin(c.calls)
  {
    var c1 := Arrive(c.(calls := Begin(c.calls)), others(0));
    var d := RunCalls(c1.(calls := Swap(c1.calls)), others, 1);
    d.(calls := d.calls.(phase := Idle))
  }

  function DoWrite(c: Client, n: nat): Client
    requires CanWrite(c.pipe, n) && c.sockets != []
  {
    var p, last := Write(c.pipe, n), |c.sockets| - 1;
    if c.pipe.queue == [] then c.(pipe := p)
    else c.(pipe := p, sockets := c.sockets[last := c.sockets[last] + Rest(c.pipe.queue[0])[..n]])
  }

  function Next(c: Client, a: Action): Client
    requires Enabled(c, a) && c.sockets != []
  {
    match a
    case Send(data) => c.(calls := Submit(c.calls, data))
    case BeginAsync => c.(calls := Begin(c.calls))
    case SwapAsync => c.(calls := Swap(c.calls))
    case TakeAsync => DoTake(c)
    case EndAsync => c.(calls := End(c.calls))
    case WriteReady(n) => DoWrite(c, n)
    case Reconnect => DoReconnect(c)
  }

  /** What the socket is replaced by when the connection is lost, the new socket() succeeding. */
  function DoReconnect(c: Client): Client {
    c.(pipe := c.pipe.(wantWrite := true), sockets := c.sockets + [[]])
  }

  /** The buffers that were queued, in order. */
  function Accepted(done: seq<bytes>, accepted: seq<bool>): seq<bytes>
    requires |accepted| == |done|
  {
    if done == [] then []
    else
      var n := |done| - 1;
      Accepted(done[..n], accepted[..n]) + if accepted[n] then [done[n]] else []
  }

  ghost predicate Inv(c: Client) {
    && DeferredInv(c.calls) && PipeInv(c.pipe)
    && c.sockets != [] && Flatten(c.sockets) == c.pipe.written
    && |c.pipe.queue| <= 1_000_001
    && |c.accepted| == |c.calls.done| && Trails(c.pipe.queue, Accepted(c.calls.done, c.accepted))
    && Stream(c.pipe) == Flatten(Accepted(c.calls.done, c.accepted))
  }

  lemma InitInv()
    ensures Inv(INIT)
  {
    assert Flatten([[]]) == [] + Flatten<byte>([[]][1..]);
  }

  lemma FlattenLast(parts: seq<bytes>, more: bytes)
    requires parts != []
    ensures var n := |parts| - 1;
      Flatten(parts[n := parts[n] + more]) == Flatten(parts) + more
  {
    var n := |parts| - 1;
    var init := parts[..n];
    assert parts == init + [parts[n]];
    assert parts[n := parts[n] + more] == init + [parts[n] + more];
    FlattenSingle(init, parts[n]);
    FlattenSingle(init, parts[n] + more);
    assert Flatten(init) + parts[n] + more == Flatten(init) + (parts[n] + more);
  }

  lemma SendStep(c: Client, data: bytes)
    requires c.sockets != []
    ensures Next(c, Send(data)) == c.(calls := Submit(c.calls, data))
  {
  }

  lemma TakeStep(c: Client)
    requires CanTake(c.calls)
    ensures DoTake(c).calls == Take(c.calls)
  {
  }

  lemma ArriveStep(c: Client, sends: seq<bytes>)
    ensures Arrive(c, sends).calls.batch == c.calls.batch && Arrive(c, sends).calls.phase == c.calls.phase
  {
  }

  lemma TakeKeepsInv(c: Client)
    requires Inv(c) && CanTake(c.calls)
    ensures Inv(DoTake(c))
  {
    CallbackKeepsInv(c.calls);
    var data, ok := c.calls.batch[0], !Full(c.pipe);
    var done, accepted := c.calls.done + [data], c.accepted + [ok];
    assert done[..|c.calls.done|] == c.calls.done && accepted[..|c.accepted|] == c.accepted;
    var before := Accepted(c.calls.done, c.accepted);
    if ok {
      EnqueueStream(c.pipe, data);
      EnqueueTrails(c.pipe, data, before);
      FlattenSingle(before, data);
    } else {
      assert before + [] == before;
    }
  }

  lemma WriteKeepsInv(c: Client, n: nat)
    requires Inv(c) && CanWrite(c.pipe, n)
    ensures Inv(DoWrite(c, n))
  {
    WriteStream(c.pipe, n);
    WriteTrails(c.pipe, n, Accepted(c.calls.done, c.accepted));
    if c.pipe.queue != [] {
      FlattenLast(c.sockets, Rest(c.pipe.queue[0])[..n]);
    }
  }

  lemma NextKeepsInv(c: Client, a: Action)
    requires Inv(c) && Enabled(c, a)
    ensures Inv(Next(c, a))
  {
    match a
    case Send(data) => SubmitKeepsInv(c.calls, data);
    case TakeAsync => TakeKeepsInv(c);
    case WriteReady(n) => WriteKeepsInv(c, n);
    case Reconnect =>
      FlattenSingle(c.sockets, []);
      assert c.pipe.written + [] == c.pipe.written;
    case _ => CallbackKeepsInv(c.calls);
  }

  /** run leads from c to e, every step enabled when it is taken. */
  ghost predicate Follows(c: Client, run: seq<Action>, e: Client)
    requires c.sockets != []
    decreases |run|
  {
    if run == [] then c == e
    else Enabled(c, run[0]) && Next(c, run[0]).sockets != [] && Follows(Next(c, run[0]), run[1..], e)
  }

  /** Over any run with any number of reconnects, the bytes written on all sockets one after the other, followed by
      what is still queued, are the accepted buffers in order: a partly written buffer resumes where it stopped on
      the next socket, and a refused one contributes nothing. Every call is accounted for in submission order. */
  lemma {:induction false} StreamAcrossReconnects(c: Client, run: seq<Action>, e: Client)
    requires Inv(c) && Follows(c, run, e)
    ensures Inv(e)
    ensures Flatten(e.sockets) + Unwritten(e.pipe.queue) == Flatten(Accepted(e.calls.done, e.accepted))
    ensures e.calls.log == e.calls.done + e.calls.batch + e.calls.functions && |e.pipe.queue| <= 1_000_001
    decreases |run|
  {
    if run != [] {
      NextKeepsInv(c, run[0]);
      StreamAcrossReconnects(Next(c, run[0]), run[1..], e);
    }
  }

  lemma {:induction false} AllAccepted(done: seq<bytes>, accepted: seq<bool>)
    requires |accepted| == |done| && false !in accepted
    ensures Accepted(done, accepted) == done
  {
    if done != [] {
      var n := |done| - 1;
      assert accepted[n] in accepted;
      AllAccepted(done[..n], accepted[..n]);
      assert done == done[..n] + [done[n]];
    }
  }

  /** While no buffer is refused, everything submitted is on its way in order. */
  lemma SendStream(c: Client)
    requires Inv(c) && false !in c.accepted
    ensures c.pipe.written + Unwritten(c.pipe.queue) + Flatten(c.calls.batch) + Flatten(c.calls.functions) == Flatten(c.calls.log)
  {
    AllAccepted(c.calls.done, c.accepted);
    FlattenAppend(c.calls.done + c.calls.batch, c.calls.functions);
    FlattenAppend(c.calls.done, c.calls.batch);
  }

  // ---- What runs record ------------------------------------------------------------------------

  /** The buffers passed to Send, in order. */
  function Sends(run: seq<Action>): seq<bytes> {
    if run == [] then [] else (if run[0].Send? then [run[0].data] else []) + Sends(run[1..])
  }

  /** The calls accounted for are those made, whenever and by whichever thread, in the order they were made. */
  lemma {:induction false} LogIsSends(c: Client, run: seq<Action>, e: Client)
    requires c.sockets != [] && Follows(c, run, e)
    ensures e.calls.log == c.calls.log + Sends(run)
    decreases |run|
  {
    if run == [] {
      assert c.calls.log + [] == c.calls.log;
    } else {
      var d := Next(c, run[0]);
      LogIsSends(d, run[1..], e);
      SumOfThree(c.calls.log, if run[0].Send? then [run[0].data] else [], Sends(run[1..]));
      assert d.calls.log == c.calls.log + if run[0].Send? then [run[0].data] else [];
    }
  }

  /** The environment's choices: send anything at any time; outside the callback, any partial write of what is queued,
      or an empty WRITE event while it is wanted; a lost connection. */
  lemma EnvironmentIsFree(c: Client, data: bytes, n: nat)
    requires Inv(c)
    ensures Enabled(c, Send(data))
    ensures c.calls.phase == Idle ==> Enabled(c, Reconnect)
    ensures c.calls.phase == Idle && c.pipe.queue != [] && n <= |c.pipe.queue[0].data| - c.pipe.queue[0].pos ==>
              Enabled(c, WriteReady(n))
    ensures c.calls.phase == Idle && c.pipe.queue == [] && c.pipe.wantWrite ==> Enabled(c, WriteReady(n))
  {
  }

  /** Losing the connection: a further socket, nothing written on it yet, watched for WRITE; what is queued stays. */
  lemma ReconnectEffect(c: Client)
    requires Inv(c) && c.calls.phase == Idle
    ensures var d := Next(c, Reconnect);
      && d.sockets == c.sockets + [[]] && d.pipe.wantWrite && d.pipe.queue == c.pipe.queue
      && d.calls == c.calls && d.accepted == c.accepted
  {
  }

  /** How many WRITE events of a run find the queue empty. */
  ghost function IdleWrites(c: Client, run: seq<Action>): nat
    decreases |run|
  {
    if run == [] || c.sockets == [] || !Enabled(c, run[0]) then 0
    else (if run[0].WriteReady? && c.pipe.queue == [] then 1 else 0) + IdleWrites(Next(c, run[0]), run[1..])
  }

  /** How many steps of a run may queue a buffer or open a socket. */
  function Rises(run: seq<Action>): nat {
    if run == [] then 0 else (if run[0].TakeAsync? || run[0].Reconnect? then 1 else 0) + Rises(run[1..])
  }

  /** WRITE events are not wanted for long without need: between two calls of __Send or reconnects at most one finds the
      queue empty, over any run. */
  lemma {:induction false} FewIdleWrites(c: Client, run: seq<Action>)
    requires c.sockets != []
    ensures IdleWrites(c, run) <= Rises(run) + if c.pipe.wantWrite then 1 else 0
    decreases |run|
  {
    if run != [] && Enabled(c, run[0]) {
      var d := Next(c, run[0]);
      if d.sockets != [] {
        FewIdleWrites(d, run[1..]);
      }
    }
  }

  // ---- Refusals --------------------------------------------------------------------------------

  /** How many of the next b buffers are queued behind q others: as long as at most 1000000 are. */
  function Room(q: nat, b: nat): nat {
    if q + b <= 1_000_001 then b else if q <= 1_000_000 then 1_000_001 - q else 0
  }

  /** The verdicts on the next b buffers. */
  function Verdicts(q: nat, b: nat): seq<bool> {
    seq(b, j requires 0 <= j < b => q + j <= 1_000_000)
  }

  lemma VerdictsStep(q: nat, b: nat)
    requires b > 0
    ensures q <= 1_000_000 ==> Verdicts(q, b) == [true] + Verdicts(q + 1, b - 1)
    ensures q > 1_000_000 ==> Verdicts(q, b) == [false] + Verdicts(q, b - 1)
  {
  }

  lemma TakeEffect(c: Client)
    requires CanTake(c.calls)
    ensures var d := DoTake(c);
      && d.calls == Take(c.calls) && d.accepted == c.accepted + [|c.pipe.queue| <= 1_000_000]
      && d.pipe.queue == c.pipe.queue + (if |c.pipe.queue| <= 1_000_000 then [Buffer(c.calls.batch[0], 0)] else [])
      && d.pipe.written == c.pipe.written && d.sockets == c.sockets
  {
  }

  /** Over every batch, whatever is sent meanwhile: a call is accepted exactly if it finds at most 1000000 buffers
      queued, counting those at the start and the calls of the batch before it. */
  lemma {:induction false} BatchAccepts(c: Client, others: nat -> seq<bytes>, i: nat)
    requires c.calls.phase == Draining
    ensures var d, q, b := RunCalls(c, others, i), |c.pipe.queue|, |c.calls.batch|;
      d.accepted == c.accepted + Verdicts(q, b) && |d.pipe.queue| == q + Room(q, b)
    decreases |c.calls.batch|
  {
    var q, b := |c.pipe.queue|, |c.calls.batch|;
    if b == 0 {
      assert c.accepted + [] == c.accepted;
    } else {
      TakeEffect(c);
      hide DoTake;
      BatchAccepts(Arrive(DoTake(c), others(i)), others, i + 1);
      VerdictsStep(q, b);
      var q' := if q <= 1_000_000 then q + 1 else q;
      SumOfThree(c.accepted, [q <= 1_000_000], Verdicts(q', b - 1));
    }
  }

  /** The calls of a batch have been run when it is over, and those sent meanwhile are queued in order. */
  lemma {:induction false} BatchKeepsCalls(c: Client, others: nat -> seq<bytes>, i: nat)
    requires c.calls.phase == Draining
    ensures var d := RunCalls(c, others, i);
      && d.calls.done == c.calls.done + c.calls.batch
      && d.calls.functions == c.calls.functions + Arrivals(others, i, |c.calls.batch|)
    decreases |c.calls.batch|
  {
    if c.calls.batch == [] {
      assert c.calls.done + [] == c.calls.done && c.calls.functions + [] == c.calls.functions;
    } else {
      TakeEffect(c);
      hide DoTake;
      var d := Arrive(DoTake(c), others(i));
      BatchKeepsCalls(d, others, i + 1);
      assert c.calls.batch == [c.calls.batch[0]] + c.calls.batch[1..];
      SumOfThree(c.calls.done, [c.calls.batch[0]], c.calls.batch[1..]);
      SumOfThree(c.calls.functions, others(i), Arrivals(others, i + 1, |c.calls.batch| - 1));
    }
  }

  /** One whole callback: everything queued by the time of the swap is run, accepted while there is room, and what is
      sent afterwards waits for the next. */
  lemma BatchEffect(c: Client, others: nat -> seq<bytes>)
    requires CanBegin(c.calls)
    ensures var d, q, calls := RunBatch(c, others), |c.pipe.queue|, c.calls.functions + others(0);
      && d.accepted == c.accepted + Verdicts(q, |calls|) && |d.pipe.queue| == q + Room(q, |calls|)
      && d.calls.done == c.calls.done + calls && d.calls.functions == Arrivals(others, 1, |calls|)
  {
    hide RunCalls, Verdicts, Room;
    var calls := c.calls.functions + others(0);
    assert c.calls.functions + [] == c.calls.functions;
    var c1 := Arrive(c.(calls := Begin(c.calls)), others(0));
    var c2 := c1.(calls := Swap(c1.calls));
    assert c2.calls.batch == calls && c2.calls.functions == [];
    BatchAccepts(c2, others, 1);
    BatchKeepsCalls(c2, others, 1);
    assert [] + Arrivals(others, 1, |calls|) == Arrivals(others, 1, |calls|);
  }

  predicate Delivers(c: Client, a: Action) {
    match a
    case WriteReady(n) => Progress(c.pipe, n)
    case _ => a.BeginAsync? || a.SwapAsync? || a.TakeAsync? || a.EndAsync?
  }

  /** No stranded data, also right after a reconnect. */
  lemma NoStrandedData(c: Client) returns (a: Action)
    requires Inv(c) && (c.calls.functions != [] || c.calls.batch != [] || c.pipe.queue != [])
    ensures Enabled(c, a) && Delivers(c, a)
  {
    match c.calls.phase
    case Entered => a := SwapAsync;
    case Draining => a := if c.calls.batch != [] then TakeAsync else EndAsync;
    case Idle => a := if c.calls.functions != [] then BeginAsync else WriteReady(|Rest(c.pipe.queue[0])|);
  }

  /** What the new socket carries first is the rest of the buffer that was being written, not its beginning. */
  lemma ReconnectResumes(c: Client, n: nat)
    requires Inv(c) && c.calls.phase == Idle && c.pipe.queue != [] && 0 < n <= |Rest(c.pipe.queue[0])|
    ensures Next(c, Reconnect).sockets != [] && Enabled(Next(c, Reconnect), WriteReady(n))
    ensures var b := c.pipe.queue[0];
      Next(Next(c, Reconnect), WriteReady(n)).sockets == c.sockets + [b.data[b.pos..b.pos + n]]
  {
    var b := c.pipe.queue[0];
    assert Rest(b)[..n] == b.data[b.pos..b.pos + n];
    hide Inv, Write, Rest;
    NextSocket(c.sockets, b.data[b.pos..b.pos + n]);
  }

  lemma NextSocket(sockets: seq<bytes>, more: bytes)
    ensures (sockets + [[]])[|sockets| := [] + more] == sockets + [more]
  {
    assert [] + more == more;
  }

  /** How many steps of a run are the loop thread's own. */
  function Own(run: seq<Action>): nat {
    if run == [] then 0 else (if run[0].Send? then 0 else 1) + Own(run[1..])
  }

  /** One leg of a run after another. */
  lemma {:induction false} Then(c: Client, run: seq<Action>, d: Client, more: seq<Action>, e: Client)
    requires c.sockets != [] && Follows(c, run, d) && d.sockets != [] && Follows(d, more, e)
    ensures Follows(c, run + more, e) && Own(run + more) == Own(run) + Own(more)
    decreases |run|
  {
    hide Enabled, Next;
    if run == [] {
      assert run + more == more;
    } else {
      Then(Next(c, run[0]), run[1..], d, more, e);
      assert (run + more)[1..] == run[1..] + more;
    }
  }

  lemma OneStep(c: Client, a: Action)
    requires c.sockets != [] && Enabled(c, a) && Next(c, a).sockets != []
    ensures Follows(c, [a], Next(c, a)) && Own([a]) == if a.Send? then 0 else 1
  {
    assert [a][1..] == [];
  }

  lemma {:induction false} ArriveFollows(c: Client, sends: seq<bytes>) returns (run: seq<Action>)
    requires c.sockets != []
    ensures Follows(c, run, Arrive(c, sends)) && Own(run) == 0
  {
    run := [];
    if sends != [] {
      var n := |sends| - 1;
      run := ArriveFollows(c, sends[..n]);
      var d := Arrive(c, sends[..n]);
      assert sends[..n] + [sends[n]] == sends;
      SubmitAllMore(c.calls, sends[..n], sends[n]);
      OneStep(d, Send(sends[n]));
      Then(c, run, d, [Send(sends[n])], Arrive(c, sends));
      run := run + [Send(sends[n])];
    }
  }

  lemma {:induction false} RunCallsFollows(c: Client, others: nat -> seq<bytes>, i: nat) returns (run: seq<Action>)
    requires c.calls.phase == Draining && c.sockets != []
    ensures var d := RunCalls(c, others, i);
      Follows(c, run, d) && CanEnd(d.calls) && d.sockets == c.sockets
    ensures Own(run) == |c.calls.batch|
    decreases |c.calls.batch|
  {
    if c.calls.batch == [] {
      run := [];
    } else {
      hide Follows, Own;
      var d := DoTake(c);
      var e, end := Arrive(d, others(i)), RunCalls(c, others, i);
      OneStep(c, TakeAsync);
      var sends := ArriveFollows(d, others(i));
      var rest := RunCallsFollows(e, others, i + 1);
      Then(d, sends, e, rest, end);
      Then(c, [TakeAsync], d, sends + rest, end);
      run := [TakeAsync] + (sends + rest);
    }
  }

  /** A call of __AsyncCallback, whatever other threads send meanwhile, is a run of its atomic steps and their sends:
      one step of its own for each call queued at the swap, and three more. */
  lemma RunBatchFollows(c: Client, others: nat -> seq<bytes>) returns (run: seq<Action>)
    requires CanBegin(c.calls) && c.sockets != []
    ensures Follows(c, run, RunBatch(c, others))
    ensures Own(run) == |c.calls.functions + others(0)| + 3
  {
    hide Follows, RunCalls, Own;
    var c1 := Next(c, BeginAsync);
    var c2 := Arrive(c1, others(0));
    var c3 := Next(c2, SwapAsync);
    var c4, end := RunCalls(c3, others, 1), RunBatch(c, others);
    OneStep(c, BeginAsync);
    var sends := ArriveFollows(c1, others(0));
    OneStep(c2, SwapAsync);
    var middle := RunCallsFollows(c3, others, 1);
    OneStep(c4, EndAsync);
    Then(c3, middle, c4, [EndAsync], end);
    Then(c2, [SwapAsync], c3, middle + [EndAsync], end);
    Then(c1, sends, c2, [SwapAsync] + (middle + [EndAsync]), end);
    Then(c, [BeginAsync], c1, sends + ([SwapAsync] + (middle + [EndAsync])), end);
    run := [BeginAsync] + (sends + ([SwapAsync] + (middle + [EndAsync])));
  }
}
