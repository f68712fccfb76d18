/** CTcpClient as a mutable object. Each callback takes its abstract state through the step that the state machine
    of ClientSteps gives it. */
module TcpClient {
  import opened Wire
  import opened SendPath
  import opened Connections
  import C = ClientSteps

  /** buffers holds the given values, each in a buffer of its own. */
  ghost predicate Holds(buffers: seq<OutputBuffer>, values: seq<Buffer>)
    reads set b | b in buffers
  {
    && |buffers| == |values|
    && (forall i | 0 <= i < |buffers| :: buffers[i].View() == values[i])
    && (forall i, j | 0 <= i < j < |buffers| :: buffers[i] != buffers[j])
  }

  function Untouched(calls: seq<bytes>): seq<Buffer> {
    seq(|calls|, i requires 0 <= i < |calls| => Buffer(calls[i], 0))
  }

  lemma HoldsMore(buffers: seq<OutputBuffer>, values: seq<Buffer>, b: OutputBuffer)
    requires Holds(buffers, values) && b !in buffers
    ensures Holds(buffers + [b], values + [b.View()])
  {
  }

  lemma HoldsTail(buffers: seq<OutputBuffer>, values: seq<Buffer>)
    requires Holds(buffers, values) && buffers != []
    ensures Holds(buffers[1..], values[1..]) && buffers[0] !in buffers[1..] && buffers[0].View() == values[0]
  {
  }

  lemma HoldsCons(b: OutputBuffer, buffers: seq<OutputBuffer>, values: seq<Buffer>)
    requires Holds(buffers, values) && b !in buffers
    ensures Holds([b] + buffers, [b.View()] + values)
  {
  }

  lemma HoldsLength(buffers: seq<OutputBuffer>, values: seq<Buffer>)
    requires Holds(buffers, values)
    ensures |buffers| == |values|
  {
  }

  lemma HoldsNothing()
    ensures Holds([], Untouched([]))
  {
  }

  lemma UntouchedLength(calls: seq<bytes>)
    ensures |Untouched(calls)| == |calls|
  {
  }

  lemma UntouchedMore(calls: seq<bytes>, data: bytes)
    ensures Untouched(calls + [data]) == Untouched(calls) + [Buffer(data, 0)]
  {
  }

  lemma UntouchedTail(calls: seq<bytes>)
    requires calls != []
    ensures Untouched(calls)[1..] == Untouched(calls[1..]) && Untouched(calls)[0] == Buffer(calls[0], 0)
  {
  }

  predicate Apart(a: seq<OutputBuffer>, b: seq<OutputBuffer>) {
    forall x | x in a :: x !in b
  }

  lemma ApartTail(a: seq<OutputBuffer>, b: seq<OutputBuffer>)
    requires Apart(a, b) && a != []
    ensures a[0] !in b && Apart(a[1..], b)
  {
  }

  /** What a write of n bytes leaves of the queue, and that nothing else of the client's lists changes. */
  lemma WriteShape(c: C.Client, n: nat)
    requires CanWrite(c.pipe, n) && c.pipe.queue != [] && c.sockets != []
    ensures var b, d := c.pipe.queue[0], C.DoWrite(c, n);
      && (b.pos + n == |b.data| ==> d.pipe.queue == c.pipe.queue[1..])
      && (b.pos + n != |b.data| ==> d.pipe.queue == [Buffer(b.data, b.pos + n)] + c.pipe.queue[1..])
      && d.pipe.wantWrite == (c.pipe.wantWrite && d.pipe.queue != [])
      && d.calls == c.calls && |d.sockets| == |c.sockets|
  {
  }

  class Client {
    var queue: seq<OutputBuffer>
    var wantWrite: bool
    var functions: seq<OutputBuffer>
    var pending: bool
    /** Which socket the client is on, counting from 1. */
    var socket: nat
    /** The calls taken out by a running __AsyncCallback. */
    ghost var batch: seq<OutputBuffer>
    ghost var state: C.Client
    ghost var Repr: set<object>

    /** The three lists hold the given write queue and the state's calls, and share no buffer. */
    ghost predicate Lists(values: seq<Buffer>)
      reads this, Repr
    {
      && (forall b | b in queue :: b in Repr) && (forall b | b in batch :: b in Repr) && (forall b | b in functions :: b in Repr)
      && Holds(queue, values)
      && Holds(batch, Untouched(state.calls.batch))
      && Holds(functions, Untouched(state.calls.functions))
      && Apart(queue, batch) && Apart(queue, functions) && Apart(batch, functions)
    }

    ghost predicate Valid()
      reads this, Repr
      ensures Valid() ==> this in Repr && state.sockets != []
    {
      && this in Repr && Lists(state.pipe.queue)
      && wantWrite == state.pipe.wantWrite && pending == state.calls.pending && socket == |state.sockets| > 0
    }

    /** Start, up to entering the loop: the wake-up is sent and the first connection attempt made. */
    constructor ()
      ensures Valid() && state == C.INIT && fresh(Repr)
      ensures queue == [] && functions == [] && wantWrite && pending && socket == 1
    {
      queue, wantWrite, functions, pending, socket := [], true, [], true, 1;
      batch, state, Repr := [], C.INIT, {this};
    }

    /** Send: copy the bytes, queue the call and wake the loop. */
    method Send(data: array<byte>, n: nat)
      requires Valid() && n <= data.Length
      modifies this`functions, this`pending, this`state, this`Repr
      ensures Valid() && old(Repr) <= Repr && fresh(Repr - old(Repr))
      ensures state == C.Next(old(state), C.Send(data[..n]))
    {
      hide Holds, Untouched;
      var buffer := new OutputBuffer(data, n);
      HoldsMore(functions, Untouched(state.calls.functions), buffer);
      UntouchedMore(state.calls.functions, buffer.data);
      functions := functions + [buffer];
      pending := true;
      state := C.Next(state, C.Send(buffer.data));
      Repr := Repr + {buffer};
    }

    /** __Connect after the connection was lost: the write queue stays, with what was written of its front. */
    method Reconnect()
      requires Valid()
      modifies this
      ensures Valid() && Repr == old(Repr) && state == C.DoReconnect(old(state))
      ensures wantWrite && socket == old(socket) + 1 && queue == old(queue) && functions == old(functions)
    {
      socket := socket + 1;
      wantWrite := true;
      state := C.DoReconnect(state);
    }

    /** The WRITE half of __IoCallback. */
    method OnWritable(result: WriteResult)
      requires Valid() && (result.Wrote? ==> CanWrite(state.pipe, result.n))
      modifies Repr
      ensures Valid() && Repr == old(Repr)
      ensures var before := old(state);
        state == if before.pipe.queue == [] then C.DoWrite(before, 0)
                 else match result
                   case Wrote(n) => C.DoWrite(before, n)
                   case WouldBlock => before
                   case Failed => C.DoReconnect(before)
      ensures old(queue) == [] || result.Wrote? ==>
                socket == old(socket) && if queue == [] then !wantWrite else wantWrite == old(wantWrite)
      ensures old(queue) != [] && result.Failed? ==> wantWrite && socket == old(socket) + 1 && queue == old(queue)
    {
      hide Untouched;
      if queue == [] {
        wantWrite := false;
        state := C.DoWrite(state, 0);
        return;
      }
      HoldsTail(queue, state.pipe.queue);
      hide Holds;
      match result
      case WouldBlock =>
      case Failed =>
        Reconnect();
      case Wrote(n) =>
        WriteSome(n);
    }

    /** Advance the front buffer in place. */
    method Advance(n: nat)
      requires Valid() && queue != [] && state.pipe.queue != []
      modifies queue[0]
      ensures queue[0].View() == Buffer(queue[0].data, old(queue[0].pos) + n)
      ensures Lists([queue[0].View()] + state.pipe.queue[1..])
    {
      HoldsTail(queue, state.pipe.queue);
      ApartTail(queue, batch);
      ApartTail(queue, functions);
      hide Holds, Untouched, Apart;
      var buffer := queue[0];
      buffer.pos := buffer.pos + n;
      HoldsCons(buffer, queue[1..], state.pipe.queue[1..]);
      assert [buffer] + queue[1..] == queue;
    }

    /** Drop the front buffer once it has been written. */
    method DropWritten(ghost front: Buffer, ghost tail: seq<Buffer>)
      requires queue != [] && queue[0].View() == front && Lists([front] + tail)
      modifies this`queue
      ensures Lists(if front.pos == |front.data| then tail else [front] + tail)
    {
      HoldsTail(queue, [front] + tail);
      assert ([front] + tail)[1..] == tail;
      ApartTail(queue, batch);
      ApartTail(queue, functions);
      hide Holds, Untouched, Apart;
      if queue[0].GetBytes() == 0 {
        queue := queue[1..];
      }
    }

    /** write() accepted n bytes of the front buffer. */
    method WriteSome(n: nat)
      requires Valid() && queue != [] && state.pipe.queue != [] && CanWrite(state.pipe, n)
      modifies this, queue[0]
      ensures Valid() && Repr == old(Repr) && state == C.DoWrite(old(state), n)
      ensures socket == old(socket) && if queue == [] then !wantWrite else wantWrite == old(wantWrite)
    {
      hide Holds, Untouched, Apart, C.DoWrite, CanWrite;
      ghost var after, tail := C.DoWrite(state, n), state.pipe.queue[1..];
      WriteShape(state, n);
      FrontView();
      Advance(n);
      DropWritten(queue[0].View(), tail);
      StopWriting(after);
    }

    ghost method FrontView()
      requires Valid() && queue != []
      ensures state.pipe.queue != [] && queue[0].View() == state.pipe.queue[0] && queue[0] in Repr
    {
      HoldsTail(queue, state.pipe.queue);
    }

    /** Without anything left to write, WRITE events are no longer wanted. */
    method StopWriting(ghost after: C.Client)
      requires this in Repr && Lists(after.pipe.queue) && after.calls == state.calls
      requires |after.sockets| == |state.sockets| && pending == state.calls.pending && socket == |state.sockets| > 0
      requires after.pipe.wantWrite == (wantWrite && after.pipe.queue != [])
      modifies this`wantWrite, this`state
      ensures Valid() && state == after
      ensures if queue == [] then !wantWrite else wantWrite == old(wantWrite)
    {
      HoldsLength(queue, after.pipe.queue);
      hide Holds, Untouched, Apart;
      if |queue| == 0 {
        wantWrite := false;
      }
      state := after;
    }

    /** __Send on the loop thread, for the next call of the batch. */
    method RunCall(buffer: OutputBuffer)
      requires Valid() && batch != [] && batch[0] == buffer && CanTake(state.calls)
      modifies this
      ensures Valid() && Repr == old(Repr) && state == C.DoTake(old(state)) && batch == old(batch)[1..]
      ensures queue == if |old(queue)| > 1_000_000 then old(queue) else old(queue) + [buffer]
      ensures wantWrite == (old(wantWrite) || |old(queue)| <= 1_000_000)
    {
      HoldsLength(queue, state.pipe.queue);
      HoldsTail(batch, Untouched(state.calls.batch));
      UntouchedTail(state.calls.batch);
      HoldsMore(queue, state.pipe.queue, buffer);
      hide Holds, Untouched;
      var full := |queue| > WRITE_QUEUE_MAX_SIZE;
      batch := batch[1..];
      state := C.DoTake(state);
      if !full {
        queue := queue + [buffer];
        wantWrite := true;
      }
    }

    /** Sends by other threads, or by a handler, at one moment. */
    method OthersSend(sends: seq<bytes>)
      requires Valid()
      modifies this`functions, this`pending, this`state, this`Repr
      ensures Valid() && old(Repr) <= Repr && fresh(Repr - old(Repr))
      ensures state == C.Arrive(old(state), sends)
    {
      hide Valid, Lists;
      var i := 0;
      assert sends[..0] == [];
      while i < |sends|
        invariant i <= |sends| && Valid() && old(Repr) <= Repr && fresh(Repr - old(Repr))
        invariant state == C.Arrive(old(state), sends[..i])
      {
        var data := new byte[|sends[i]|](j requires 0 <= j < |sends[i]| => sends[i][j]);
        assert data[..|sends[i]|] == sends[i];
        SubmitAllMore(old(state).calls, sends[..i], sends[i]);
        assert sends[..i + 1] == sends[..i] + [sends[i]];
        C.SendStep(state, sends[i]);
        Send(data, |sends[i]|);
        i := i + 1;
      }
      assert sends[..|sends|] == sends;
    }

    /** libev clears the notification and enters the callback. */
    method Wake()
      requires Valid() && CanBegin(state.calls)
      modifies this`pending, this`state
      ensures Valid() && state == old(state).(calls := Begin(old(state).calls))
    {
      hide Holds, Untouched, Apart;
      pending := false;
      state := state.(calls := Begin(state.calls));
    }

    /** The swap under the spinlock. */
    method SwapFunctions() returns (calls: seq<OutputBuffer>)
      requires Valid() && CanSwap(state.calls) && batch == []
      modifies this`functions, this`batch, this`state
      ensures Valid() && state == old(state).(calls := Swap(old(state).calls)) && batch == calls
    {
      hide Untouched;
      HoldsNothing();
      calls := functions;
      functions, batch := [], functions;
      state := state.(calls := Swap(state.calls));
    }

    ghost method Idling()
      requires Valid()
      modifies this`state
      ensures Valid() && state == old(state).(calls := old(state).calls.(phase := Idle))
    {
      hide Holds, Untouched, Apart;
      state := state.(calls := state.calls.(phase := Idle));
    }

    ghost method BatchLength()
      requires Valid()
      ensures |batch| == |state.calls.batch|
      ensures |functions| == |state.calls.functions| && |queue| == |state.pipe.queue|
    {
      HoldsLength(queue, state.pipe.queue);
      HoldsLength(functions, Untouched(state.calls.functions));
      UntouchedLength(state.calls.functions);
      HoldsLength(batch, Untouched(state.calls.batch));
      UntouchedLength(state.calls.batch);
    }

    /** __AsyncCallback: swap the queued calls out, then run each of them. Other threads, or the handler, send
        others(0) before the swap and others(i) after the i-th call. A call queues its buffer exactly while at most
        1000000 are queued. */
    method AsyncCallback(others: nat -> seq<bytes>)
      requires Valid() && CanBegin(state.calls) && batch == []
      modifies this
      ensures Valid() && old(Repr) <= Repr && fresh(Repr - old(Repr)) && batch == []
      ensures state == C.RunBatch(old(state), others)
      ensures |queue| == |old(queue)| + C.Room(|old(queue)|, |old(functions)| + |others(0)|)
      ensures |functions| == |Arrivals(others, 1, |old(functions)| + |others(0)|)|
    {
      hide Valid, Lists, C.DoTake, SubmitAll, C.Room, C.Verdicts, Arrivals, C.RunBatch;
      BatchLength();
      C.BatchEffect(state, others);
      RunBatch(others);
      BatchLength();
    }

    method RunBatch(others: nat -> seq<bytes>)
      requires Valid() && CanBegin(state.calls) && batch == []
      modifies this
      ensures Valid() && old(Repr) <= Repr && fresh(Repr - old(Repr)) && batch == []
      ensures state == C.RunBatch(old(state), others)
    {
      hide Valid, Lists, C.DoTake, SubmitAll;
      Wake();
      C.ArriveStep(state, others(0));
      OthersSend(others(0));
      var calls := SwapFunctions();
      ghost var start := state;
      var i := 0;
      BatchLength();
      while i < |calls|
        invariant i <= |calls| && Valid() && old(Repr) <= Repr && fresh(Repr - old(Repr))
        invariant batch == calls[i..] && |batch| == |state.calls.batch| && state.calls.phase == Draining
        invariant C.RunCalls(state, others, i + 1) == C.RunCalls(start, others, 1)
      {
        C.TakeStep(state);
        RunCall(calls[i]);
        i := i + 1;
        C.ArriveStep(state, others(i));
        OthersSend(others(i));
        BatchLength();
      }
      Idling();
    }
  }
}
