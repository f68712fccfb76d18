/** CTcpServer and CCommonServer as one mutable object. Each callback takes the object's abstract state through the
    step that the state machine of ServerSteps gives it. */
module CommonServer {
  import opened Wire
  import opened Wrappers
  import opened SocketKey
  import opened Framing
  import opened Chunking
  import opened KeyedLog
  import opened SendPath
  import opened Connections
  import opened PacketThreads
  import S = ServerSteps

  type Call = (Key, OutputBuffer)

  /** calls are the queued closures for entries, each with an untouched buffer of its own among those waiting. */
  ghost predicate CallsOk(calls: seq<Call>, entries: seq<Entry>, waiting: set<OutputBuffer>)
    reads waiting
  {
    && |calls| == |entries|
    && (forall i | 0 <= i < |calls| ::
          calls[i].0.socket >= 0 && calls[i].1 in waiting && calls[i].1.pos == 0 &&
          entries[i] == (calls[i].0, calls[i].1.data))
    && (forall i, j | 0 <= i < j < |calls| :: calls[i].1 != calls[j].1)
  }

  /** c is the connection of client k, with the given write side and made of the given objects. */
  ghost predicate ConnOk(c: TcpConnection, k: Key, pipe: Pipe, parts: set<object>)
    reads c, c.Repr
  {
    k.socket >= 0 && c.key == k && c.Valid() && c.pipe == pipe && c.Repr == parts
  }

  lemma NewConnOk(c: TcpConnection, k: Key)
    requires k.socket >= 0 && c.key == k && c.Valid()
    ensures ConnOk(c, k, c.pipe, c.Repr)
  {
  }

  lemma ConnIsValid(c: TcpConnection, k: Key, p: Pipe, parts: set<object>)
    requires ConnOk(c, k, p, parts)
    ensures c.Valid() && c.key == k && c.pipe == p && k.socket >= 0 && c.Repr == parts
  {
  }

  lemma ConnParts(c: TcpConnection, k: Key, parts: set<object>)
    requires ConnOk(c, k, c.pipe, parts)
    ensures c.Repr == parts
  {
  }

  type Parts = map<Key, set<object>>

  /** Who is made of what: the fixed parts, each connection's parts and the waiting buffers are all separate. */
  ghost predicate Layout(all: set<object>, fixed: set<object>, conns: map<Key, TcpConnection>, parts: Parts,
                         waiting: set<OutputBuffer>)
  {
    && fixed <= all && waiting <= all && fixed !! waiting
    && parts.Keys == conns.Keys
    && (forall k | k in parts :: conns[k] in parts[k] && parts[k] <= all && parts[k] !! fixed && parts[k] !! waiting)
    && (forall k, l | k in parts && l in parts && k != l :: parts[k] !! parts[l])
  }

  /** Everything outside one connection is untouched by what happens inside it. */
  lemma Separate(all: set<object>, fixed: set<object>, conns: map<Key, TcpConnection>, parts: Parts,
                 waiting: set<OutputBuffer>, k: Key)
    requires Layout(all, fixed, conns, parts, waiting) && k in conns
    ensures parts.Keys == conns.Keys && conns[k] in parts[k] && parts[k] !! fixed && parts[k] !! waiting
    ensures forall l | l in parts && l != k :: conns[l] !in parts[k] && parts[l] !! parts[k] && parts[l] !! fixed
  {
  }

  lemma FixedApart(all: set<object>, fixed: set<object>, conns: map<Key, TcpConnection>, parts: Parts,
                   waiting: set<OutputBuffer>)
    requires Layout(all, fixed, conns, parts, waiting)
    ensures parts.Keys == conns.Keys && fixed !! waiting && forall k | k in parts :: parts[k] !! fixed
  {
  }

  lemma NotWaiting(all: set<object>, fixed: set<object>, conns: map<Key, TcpConnection>, parts: Parts,
                   waiting: set<OutputBuffer>, b: OutputBuffer)
    requires Layout(all, fixed, conns, parts, waiting) && b !in all
    ensures b !in waiting
  {
  }

  lemma LayoutWait(all: set<object>, fixed: set<object>, conns: map<Key, TcpConnection>, parts: Parts,
                   waiting: set<OutputBuffer>, b: OutputBuffer)
    requires Layout(all, fixed, conns, parts, waiting) && b !in all
    ensures Layout(all + {b}, fixed, conns, parts, waiting + {b})
  {
  }

  lemma LayoutAdd(all: set<object>, fixed: set<object>, conns: map<Key, TcpConnection>, parts: Parts,
                  waiting: set<OutputBuffer>, k: Key, c: TcpConnection)
    requires Layout(all, fixed, conns, parts, waiting) && c !in all && k !in conns
    ensures Layout(all + {c}, fixed, conns[k := c], parts[k := {c}], waiting)
  {
    var whole: set<object> := {c};
    var parts' := parts[k := whole];
    forall l, m | l in parts' && m in parts' && l != m ensures parts'[l] !! parts'[m] {
    }
  }

  lemma LayoutRemove(all: set<object>, fixed: set<object>, conns: map<Key, TcpConnection>, parts: Parts,
                     waiting: set<OutputBuffer>, k: Key)
    requires Layout(all, fixed, conns, parts, waiting)
    ensures Layout(all, fixed, conns - {k}, parts - {k}, waiting)
  {
  }

  lemma LayoutMove(all: set<object>, fixed: set<object>, conns: map<Key, TcpConnection>, parts: Parts,
                   waiting: set<OutputBuffer>, k: Key, b: OutputBuffer)
    requires Layout(all, fixed, conns, parts, waiting) && k in conns && b in waiting
    ensures Layout(all, fixed, conns, parts[k := parts[k] + {b}], waiting - {b})
  {
    var bs: set<object> := {b};
    var parts' := parts[k := parts[k] + bs];
    forall l, m | l in parts' && m in parts' && l != m ensures parts'[l] !! parts'[m] {
    }
  }

  class Server {
    /** m_SocketInfoManager, as the single map that SocketTable shows it to be. */
    var table: map<Key, TcpConnection>
    const dispatcher: Dispatcher
    var contents: map<Key, bytes>
    var functions: seq<Call>
    var pending: bool
    /** The server as the state machine sees it. */
    ghost var state: S.Server
    /** The objects each connection is made of, the buffers in no connection yet, and everything. */
    ghost var parts: Parts
    ghost var waiting: set<OutputBuffer>
    ghost var Repr: set<object>
    /** The parts that never change. */
    ghost const fixed: set<object>

    ghost predicate Valid()
      reads this, Repr
      ensures Valid() ==> this in Repr
    {
      && Layout(Repr, fixed, table, parts, waiting)
      && this in fixed && dispatcher in fixed && (forall t | t in dispatcher.threads :: t in fixed)
      && dispatcher.Valid() && dispatcher.log == state.cut
      && state.table.Keys == table.Keys
      && (forall k | k in table :: table[k].Repr == parts[k] && ConnOk(table[k], k, state.table[k].pipe, parts[k]))
      && contents == state.contents
      && CallsOk(functions, state.calls.functions, waiting) && pending == state.calls.pending
    }

    constructor (threadNum: int)
      ensures Valid() && state == S.INIT && fresh(Repr)
      ensures table == map[] && contents == map[] && functions == [] && !pending
    {
      hide Dispatcher.Valid, Dispatcher.Pool;
      var d := new Dispatcher(threadNum);
      dispatcher := d;
      table, contents, functions, pending := map[], map[], [], false;
      state, parts, waiting := S.INIT, map[], {};
      fixed := {this, d} + set t | t in d.threads;
      Repr := {this, d} + set t | t in d.threads;
    }

    /** CTcpServer::Send: copy the bytes, queue the call and wake the loop. */
    method Send(k: Key, data: array<byte>, n: nat)
      requires Valid() && k.socket >= 0 && n <= data.Length
      modifies this`functions, this`pending, this`state, this`waiting, this`Repr
      ensures Valid() && old(Repr) <= Repr && fresh(Repr - old(Repr)) && old(waiting) <= waiting
      ensures state == S.Next(old(state), S.Send(k, data[..n]))
      ensures pending && exists buffer: OutputBuffer | fresh(buffer) ::
                functions == old(functions) + [(k, buffer)] && buffer.data == data[..n] && buffer.pos == 0
    {
      hide Valid, S.Next, S.Enabled;
      S.SendStep(state, k, data[..n]);
      var buffer := new OutputBuffer(data, n);
      QueueCall(k, buffer);
    }

    /** The two steps of Send under the spinlock. */
    method QueueCall(k: Key, buffer: OutputBuffer)
      requires Valid() && k.socket >= 0 && buffer !in Repr && buffer.pos == 0
      modifies this`functions, this`pending, this`state, this`waiting, this`Repr
      ensures Valid() && Repr == old(Repr) + {buffer} && waiting == old(waiting) + {buffer}
      ensures functions == old(functions) + [(k, buffer)] && pending
      ensures state == old(state).(calls := Submit(old(state).calls, (k, buffer.data)))
    {
      hide Layout, CallsOk, ConnOk, Dispatcher.Valid;
      FixedApart(Repr, fixed, table, parts, waiting);
      NotWaiting(Repr, fixed, table, parts, waiting, buffer);
      MoreCalls(functions, state.calls.functions, waiting, k, buffer);
      LayoutWait(Repr, fixed, table, parts, waiting, buffer);
      functions := functions + [(k, buffer)];
      pending := true;
      state := state.(calls := Submit(state.calls, (k, buffer.data)));
      waiting, Repr := waiting + {buffer}, Repr + {buffer};
    }

    /** __Accept with a descriptor that is not in use. */
    method Accept(k: Key)
      requires Valid() && S.Enabled(state, S.Accept(k))
      modifies this
      ensures Valid() && fresh(Repr - old(Repr))
      ensures state == S.Next(old(state), S.Accept(k))
      ensures k !in old(table) && table.Keys == old(table.Keys) + {k} && contents == old(contents)
      ensures fresh(table[k]) && table[k].queue == [] && !table[k].wantWrite
    {
      hide Valid, S.Next, S.Enabled;
      S.AcceptStep(state, k);
      var c := new TcpConnection(k);
      Enrol(k, c);
    }

    /** A new connection enters the table. */
    method Enrol(k: Key, c: TcpConnection)
      requires Valid() && k !in state.table && k.socket >= 0
      requires c !in Repr && c.key == k && c.Valid() && c.Repr == {c} && c.pipe == Pipe([], false, [])
      modifies this`table, this`parts, this`state, this`Repr
      ensures Valid() && Repr == old(Repr) + {c} && state == S.DoAccept(old(state), k)
      ensures k !in old(table) && table == old(table)[k := c]
    {
      hide Layout, ConnOk, CallsOk, Dispatcher.Valid, TcpConnection.Valid;
      NewConnOk(c, k);
      LayoutAdd(Repr, fixed, table, parts, waiting, k, c);
      FixedApart(Repr, fixed, table, parts, waiting);
      table, parts := table[k := c], parts[k := {c}];
      state := S.DoAccept(state, k);
      Repr := Repr + {c};
      forall l | l in table ensures table[l].Repr == parts[l] && ConnOk(table[l], l, state.table[l].pipe, parts[l]) {
        if l != k {
          assert parts[l] == old(parts)[l] && state.table[l] == old(state).table[l];
        }
      }
    }

    /** OnClientDisconnected and its siblings: the connection leaves the table and its buffer is dropped. */
    method Lose(k: Key)
      requires Valid() && k in table
      modifies this`table, this`parts, this`contents, this`state
      ensures Valid() && table.Values <= old(table.Values)
      ensures state == S.Disconnect(old(state), k)
      ensures table == old(table) - {k} && contents == old(contents) - {k}
    {
      hide Layout, ConnOk, CallsOk, Dispatcher.Valid, TcpConnection.Valid;
      LayoutRemove(Repr, fixed, table, parts, waiting, k);
      FixedApart(Repr, fixed, table, parts, waiting);
      table, parts := table - {k}, parts - {k};
      contents := contents - {k};
      state := S.Disconnect(state, k);
      forall l | l in table ensures table[l].Repr == parts[l] && ConnOk(table[l], l, state.table[l].pipe, parts[l]) {
        assert parts[l] == old(parts)[l] && state.table[l] == old(state).table[l];
      }
    }

    /** __AddContent: append the chunk, cut off and hand on whole frames, keep the rest. `defined` is false if the
        addition nPktLen + 4 overflowed. */
    method AddContent(k: Key, chunk: bytes) returns (defined: bool)
      requires dispatcher.Valid()
      modifies this`contents, dispatcher, dispatcher.threads
      ensures dispatcher.Valid()
      ensures var p := Drain((if k in old(contents) then old(contents)[k] else []) + chunk);
        && defined == !p.fault
        && dispatcher.log == old(dispatcher.log) + Tag(k, Frames(p.segments))
        && (defined ==> contents == old(contents)[k := p.residue])
    {
      hide Dispatcher.Valid, Drain, DecodeI32, ToInt32, Frames, Tag, Dispatcher.Pool;
      var strData := (if k in contents then contents[k] else []) + chunk;
      ghost var whole, cut: seq<Segment> := strData, [];
      ResumeNothing(whole);
      NothingTagged(dispatcher.log, k);
      while |strData| > HEADER
        invariant dispatcher.Valid() && contents == old(contents)
        invariant Drain(whole) == Resume(cut, Drain(strData))
        invariant dispatcher.log == old(dispatcher.log) + Tag(k, Frames(cut))
        decreases |strData|
      {
        var nPktLen := DecodeI32(strData);
        if nPktLen <= 0 {
          ResumeDiscard(cut, strData);
          cut := cut + [Discard(strData)];
          strData := [];
          break;
        }
        if nPktLen > MAX_LENGTH {
          ResumeStop(cut, strData);
          return false;
        }
        if ToInt32(|strData|) < nPktLen + HEADER {
          break;
        }
        EnoughBytes(strData);
        var frame := strData[..nPktLen + HEADER];
        dispatcher.HandlePkt((k, frame));
        ResumeFrame(cut, strData);
        TagFrame(old(dispatcher.log), k, cut, frame);
        cut := cut + [Frame(frame)];
        strData := strData[nPktLen + HEADER..];
      }
      ResumeStop(cut, strData);
      contents := contents[k := strData];
      return true;
    }

    /** The READ half of __IoCallback when bytes have arrived. */
    method Receive(k: Key, chunk: bytes)
      requires Valid() && S.Enabled(state, S.Receive(k, chunk))
      modifies this, dispatcher, dispatcher.threads
      ensures Valid() && Repr == old(Repr)
      ensures state == S.Next(old(state), S.Receive(k, chunk))
    {
      hide Layout, ConnOk, CallsOk, Dispatcher.Valid, Drain, Frames, Tag, S.Next, S.Enabled;
      S.ReceiveStep(state, k, chunk);
      FixedApart(Repr, fixed, table, parts, waiting);
      var defined := AddContent(k, chunk);
      state := S.DoReceive(state, k, chunk);
    }

    /** The WRITE half of __IoCallback, up to giving the connection up. */
    method WriteFront(k: Key, result: WriteResult) returns (lost: bool)
      requires Valid() && k in table
      requires result.Wrote? ==> CanWrite(table[k].pipe, result.n)
      modifies this`state, table[k].Repr
      ensures Valid() && Repr == old(Repr) && table == old(table)
      ensures k in old(state).table
      ensures var before, p := old(state), old(state).table[k].pipe;
        && lost == (p.queue != [] && result.Failed?)
        && state == S.SetPipe(before, k, if result.Wrote? then Write(p, result.n) else if p.queue == [] then Write(p, 0) else p)
      ensures !lost && !result.WouldBlock? ==> table[k].wantWrite == (table[k].queue != [] && old(table[k].pipe.wantWrite))
      ensures lost == (old(table[k].queue) != [] && result.Failed?)
    {
      hide Layout, ConnOk, CallsOk, Dispatcher.Valid, CanWrite, Write, TcpConnection.Valid;
      var c := table[k];
      Separate(Repr, fixed, table, parts, waiting, k);
      ConnIsValid(c, k, state.table[k].pipe, parts[k]);
      lost := c.OnWritable(result);
      NewConnOk(c, k);
      Record(k);
    }

    /** Record what client k's connection has written. */
    ghost method Record(k: Key)
      requires ValidExcept(k) && k in table && ConnOk(table[k], k, table[k].pipe, parts[k])
      modifies this`state
      ensures Valid() && k in old(state).table && state == S.SetPipe(old(state), k, table[k].pipe)
    {
      hide Layout, ConnOk, CallsOk, Dispatcher.Valid, TcpConnection.Valid;
      FixedApart(Repr, fixed, table, parts, waiting);
      ConnParts(table[k], k, parts[k]);
      state := S.SetPipe(state, k, table[k].pipe);
      forall l | l in table ensures table[l].Repr == parts[l] && ConnOk(table[l], l, state.table[l].pipe, parts[l]) {
        if l != k {
          assert state.table[l] == old(state).table[l];
        }
      }
    }

    /** The WRITE half of __IoCallback. */
    method OnWritable(k: Key, result: WriteResult)
      requires Valid() && state.calls.phase == Idle && k in table && table[k].pipe.wantWrite
      requires result.Wrote? ==> CanWrite(table[k].pipe, result.n)
      modifies this, table[k].Repr
      ensures Valid() && Repr == old(Repr) && k in old(state).table
      ensures var before, p := old(state), old(state).table[k].pipe;
        state == match result
          case Wrote(n) => S.SetPipe(before, k, Write(p, n))
          case WouldBlock => S.SetPipe(before, k, if p.queue == [] then Write(p, 0) else p)
          case Failed => if p.queue == [] then S.SetPipe(before, k, Write(p, 0)) else S.Disconnect(before, k)
      ensures k !in table <==> old(table[k].queue) != [] && result.Failed?
      ensures k in table && !result.WouldBlock? ==> (table[k].wantWrite <==> table[k].queue != [])
    {
      hide Valid, CanWrite, Write;
      var lost := WriteFront(k, result);
      if lost {
        InTable(k);
        Lose(k);
        DisconnectForgetsPipe(old(state), k, old(state).table[k].pipe);
      }
    }

    ghost method InTable(k: Key)
      requires Valid() && k in state.table
      ensures k in table
    {
    }

    /** Valid, but for the write side of client k. */
    ghost predicate ValidExcept(k: Key)
      reads this, Repr
    {
      && Layout(Repr, fixed, table, parts, waiting)
      && this in fixed && dispatcher in fixed && (forall t | t in dispatcher.threads :: t in fixed)
      && dispatcher.Valid() && dispatcher.log == state.cut
      && state.table.Keys == table.Keys
      && (forall l | l in table && l != k :: table[l].Repr == parts[l] && ConnOk(table[l], l, state.table[l].pipe, parts[l]))
      && contents == state.contents
      && CallsOk(functions, state.calls.functions, waiting) && pending == state.calls.pending
    }

    /** Record that client k's connection has taken a waiting buffer. */
    ghost method Adopt(k: Key, buffer: OutputBuffer)
      requires ValidExcept(k) && k in table && buffer in waiting
      requires forall c | c in functions :: c.1 != buffer
      requires var more: set<object> := {buffer}; ConnOk(table[k], k, table[k].pipe, parts[k] + more)
      modifies this`state, this`parts, this`waiting
      ensures Valid() && waiting == old(waiting) - {buffer}
      ensures k in old(state).table && state == S.SetPipe(old(state), k, table[k].pipe)
    {
      hide Layout, ConnOk, CallsOk, Dispatcher.Valid, TcpConnection.Valid;
      FixedApart(Repr, fixed, table, parts, waiting);
      var more: set<object> := {buffer};
      ConnParts(table[k], k, parts[k] + more);
      FewerWaiting(functions, state.calls.functions, waiting, buffer);
      LayoutMove(Repr, fixed, table, parts, waiting, k, buffer);
      state := S.SetPipe(state, k, table[k].pipe);
      parts, waiting := parts[k := parts[k] + more], waiting - {buffer};
      forall l | l in table ensures table[l].Repr == parts[l] && ConnOk(table[l], l, state.table[l].pipe, parts[l]) {
        if l != k {
          assert parts[l] == old(parts)[l] && state.table[l] == old(state).table[l];
        }
      }
    }

    /** CTcpConnection::Send for a buffer that waits in no list, up to giving the connection up. */
    method PushBuffer(k: Key, buffer: OutputBuffer) returns (refused: bool)
      requires Valid() && k in table && buffer in waiting && buffer.pos == 0
      requires forall c | c in functions :: c.1 != buffer
      modifies this`state, this`parts, this`waiting, table[k]
      ensures Valid() && k in old(state).table && refused == Full(old(state).table[k].pipe)
      ensures refused ==> state == old(state) && waiting == old(waiting)
      ensures !refused ==> state == S.SetPipe(old(state), k, Enqueue(old(state).table[k].pipe, buffer.data)) &&
                           waiting == old(waiting) - {buffer}
    {
      hide Layout, ConnOk, CallsOk, Dispatcher.Valid, Full, Enqueue, TcpConnection.Valid;
      var c := table[k];
      Separate(Repr, fixed, table, parts, waiting, k);
      ConnIsValid(c, k, state.table[k].pipe, parts[k]);
      refused := c.Send(buffer);
      NewConnOk(c, k);
      if !refused {
        Adopt(k, buffer);
      }
    }

    /** __Send on the loop thread, for the next call of the batch. */
    method RunCall(k: Key, buffer: OutputBuffer)
      requires Valid() && CanTake(state.calls) && state.calls.batch[0] == (k, buffer.data)
      requires buffer in waiting && buffer.pos == 0
      requires forall c | c in functions :: c.1 != buffer
      modifies this`table, this`parts, this`contents, this`state, this`waiting, table.Values
      ensures Valid() && state == S.DoTake(old(state)) && table.Values <= old(table.Values)
      ensures waiting == old(waiting) || waiting == old(waiting) - {buffer}
    {
      hide Valid, Full, Enqueue;
      StepTake();
      if k in table {
        var refused := PushBuffer(k, buffer);
        if refused {
          Lose(k);
        }
      }
    }

    ghost method StepTake()
      requires Valid() && CanTake(state.calls)
      modifies this`state
      ensures Valid() && state == old(state).(calls := Take(old(state).calls))
      ensures table.Keys == state.table.Keys
    {
      hide ConnOk, Dispatcher.Valid;
      state := state.(calls := Take(state.calls));
    }

    /** Sends by other threads, or by a handler, at one moment. */
    method OthersSend(sends: seq<Entry>)
      requires Valid() && forall e | e in sends :: e.0.socket >= 0
      modifies this`functions, this`pending, this`state, this`waiting, this`Repr
      ensures Valid() && old(Repr) <= Repr && fresh(Repr - old(Repr)) && old(waiting) <= waiting
      ensures state == S.Arrive(old(state), sends)
      ensures forall c | c in functions :: c in old(functions) || fresh(c.1)
    {
      hide Valid;
      var i := 0;
      assert sends[..0] == [];
      while i < |sends|
        invariant i <= |sends| && Valid() && old(Repr) <= Repr && fresh(Repr - old(Repr)) && old(waiting) <= waiting
        invariant state == S.Arrive(old(state), sends[..i])
        invariant forall c | c in functions :: c in old(functions) || fresh(c.1)
      {
        var (k, bytes) := sends[i];
        assert sends[i] in sends;
        var data := new byte[|bytes|](j requires 0 <= j < |bytes| => bytes[j]);
        assert data[..|bytes|] == bytes;
        SubmitAllMore(old(state).calls, sends[..i], sends[i]);
        assert sends[..i + 1] == sends[..i] + [sends[i]];
        S.SendStep(state, k, bytes);
        Send(k, data, |bytes|);
        i := i + 1;
      }
      assert sends[..|sends|] == sends;
    }

    /** libev clears the notification and enters the callback. */
    method Wake()
      requires Valid() && CanBegin(state.calls)
      modifies this`pending, this`state
      ensures Valid() && state == old(state).(calls := Begin(old(state).calls))
    {
      hide ConnOk, Dispatcher.Valid, Layout, CallsOk;
      FixedApart(Repr, fixed, table, parts, waiting);
      pending := false;
      state := state.(calls := Begin(state.calls));
    }

    /** The swap under the spinlock. */
    method SwapFunctions() returns (batch: seq<Call>)
      requires Valid() && CanSwap(state.calls)
      modifies this`functions, this`state
      ensures Valid() && functions == [] && state == old(state).(calls := Swap(old(state).calls))
      ensures CallsOk(batch, state.calls.batch, waiting)
    {
      hide ConnOk, Dispatcher.Valid, Layout;
      FixedApart(Repr, fixed, table, parts, waiting);
      batch := functions;
      functions := [];
      state := state.(calls := Swap(state.calls));
    }

    ghost method Idling()
      requires Valid()
      modifies this`state
      ensures Valid() && state == old(state).(calls := old(state).calls.(phase := Idle))
    {
      hide ConnOk, Dispatcher.Valid;
      state := state.(calls := state.calls.(phase := Idle));
    }

    /** One turn of the loop: run a call of the batch, while others send. */
    method RunNext(batch: seq<Call>, sends: seq<Entry>)
      requires Valid() && state.calls.phase == Draining && batch != [] && forall e | e in sends :: e.0.socket >= 0
      requires CallsOk(batch, state.calls.batch, waiting)
      requires forall c, d | c in functions && d in batch :: c.1 != d.1
      modifies this, table.Values
      ensures Valid() && old(Repr) <= Repr && fresh(Repr - old(Repr)) && table.Values <= old(table.Values)
      ensures CanTake(old(state).calls) && state == S.Arrive(S.DoTake(old(state)), sends)
      ensures CallsOk(batch[1..], state.calls.batch, waiting)
      ensures forall c, d | c in functions && d in batch[1..] :: c.1 != d.1
    {
      hide Valid, S.DoTake, CallsOk;
      CallsTail(batch, state.calls.batch, waiting);
      S.TakeStep(state);
      assert batch[0] in batch;
      RunCall(batch[0].0, batch[0].1);
      CallsSeen(batch[1..], state.calls.batch, waiting);
      ghost var before := waiting;
      S.ArriveStep(state, sends);
      OthersSend(sends);
      CallsWiden(batch[1..], state.calls.batch, before, waiting);
    }

    /** __AsyncCallback: swap the queued calls out, then run each of them. Other threads, or the handler, send
        others(0) before the swap and others(i) after the i-th call. */
    method AsyncCallback(others: nat -> seq<Entry>)
      requires Valid() && CanBegin(state.calls)
      requires forall i: nat, e | e in others(i) :: e.0.socket >= 0
      modifies this, table.Values
      ensures Valid() && old(Repr) <= Repr && fresh(Repr - old(Repr))
      ensures state == S.RunBatch(old(state), others)
    {
      hide Valid, S.DoTake, CallsOk, SubmitAll;
      Wake();
      S.ArriveStep(state, others(0));
      OthersSend(others(0));
      var batch := SwapFunctions();
      ghost var start := state;
      var i := 1;
      CallsLength(batch, state.calls.batch, waiting);
      while batch != []
        invariant i > 0 && Valid() && old(Repr) <= Repr && fresh(Repr - old(Repr))
        invariant table.Values <= old(table.Values)
        invariant state.calls.phase == Draining && S.RunCalls(state, others, i) == S.RunCalls(start, others, 1)
        invariant CallsOk(batch, state.calls.batch, waiting) && |batch| == |state.calls.batch|
        invariant forall c, d | c in functions && d in batch :: c.1 != d.1
        decreases |batch|
      {
        S.TakeStep(state);
        S.ArriveStep(S.DoTake(state), others(i));
        RunNext(batch, others(i));
        batch, i := batch[1..], i + 1;
        CallsLength(batch, state.calls.batch, waiting);
      }
      Idling();
    }
  }

  lemma DisconnectForgetsPipe(s: S.Server, k: Key, p: Pipe)
    requires k in s.table
    ensures S.Disconnect(S.SetPipe(s, k, p), k) == S.Disconnect(s, k)
  {
    assert S.SetPipe(s, k, p).table - {k} == s.table - {k};
  }

  lemma CallsLength(calls: seq<Call>, entries: seq<Entry>, waiting: set<OutputBuffer>)
    requires CallsOk(calls, entries, waiting)
    ensures |calls| == |entries|
  {
  }

  lemma CallsTail(calls: seq<Call>, entries: seq<Entry>, waiting: set<OutputBuffer>)
    requires CallsOk(calls, entries, waiting) && calls != []
    ensures calls[0].1 in waiting && calls[0].1.pos == 0 && entries != [] && entries[0] == (calls[0].0, calls[0].1.data)
    ensures CallsOk(calls[1..], entries[1..], waiting) && CallsOk(calls[1..], entries[1..], waiting - {calls[0].1})
  {
  }

  lemma CallsSeen(calls: seq<Call>, entries: seq<Entry>, waiting: set<OutputBuffer>)
    requires CallsOk(calls, entries, waiting)
    ensures forall c | c in calls :: c.1 in waiting
  {
  }

  lemma CallsWiden(calls: seq<Call>, entries: seq<Entry>, waiting: set<OutputBuffer>, more: set<OutputBuffer>)
    requires CallsOk(calls, entries, waiting) && waiting <= more
    ensures CallsOk(calls, entries, more)
  {
  }

  lemma MoreCalls(calls: seq<Call>, entries: seq<Entry>, waiting: set<OutputBuffer>, k: Key, b: OutputBuffer)
    requires CallsOk(calls, entries, waiting) && k.socket >= 0 && b.pos == 0 && b !in waiting
    ensures CallsOk(calls + [(k, b)], entries + [(k, b.data)], waiting + {b})
  {
  }

  lemma FewerWaiting(calls: seq<Call>, entries: seq<Entry>, waiting: set<OutputBuffer>, b: OutputBuffer)
    requires CallsOk(calls, entries, waiting) && forall c | c in calls :: c.1 != b
    ensures CallsOk(calls, entries, waiting - {b})
  {
    forall i | 0 <= i < |calls| ensures calls[i].1 in waiting - {b} {
      assert calls[i] in calls;
    }
  }

  lemma NothingTagged(log: seq<Entry>, k: Key)
    ensures log + Tag(k, Frames([])) == log
  {
  }

  lemma TagFrame(log: seq<Entry>, k: Key, cut: seq<Segment>, frame: bytes)
    ensures log + Tag(k, Frames(cut + [Frame(frame)])) == log + Tag(k, Frames(cut)) + [(k, frame)]
  {
    FramesAppend(cut, [Frame(frame)]);
    assert Frames([Frame(frame)]) == [frame];
    TagMore(k, Frames(cut), frame);
  }
}
