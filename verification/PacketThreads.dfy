/** CPktHandleThread and the dispatch of CCommonServer::__HandlePkt, as mutable objects. */
module PacketThreads {
  import opened Wire
  import opened KeyedLog
  import opened RoundRobin
  import W = WorkerPool

  class PktHandleThread {
    var queue: seq<Entry>
    var running: bool
    /** The thread as the worker machine sees it. */
    ghost var state: W.Thread<Entry>

    ghost predicate Valid()
      reads this
    {
      W.ThreadInv(state) && state.queue == queue && state.running == running
    }

    constructor ()
      ensures Valid() && state == W.NewThread()
    {
      queue, running := [], true;
      state := W.NewThread();
    }

    method AddPkt(p: Entry)
      requires Valid()
      modifies this
      ensures Valid() && state == W.AddPkt(old(state), p)
    {
      W.AddPktKeepsInv(state, p);
      queue := queue + [p];
      state := W.AddPkt(state, p);
    }

    /** What other threads do between two steps of the consumer. */
    method Meanwhile(arrivals: seq<Entry>, stop: bool, ghost start: W.Thread<Entry>, ghost past: seq<W.Event<Entry>>)
      returns (ghost events: seq<W.Event<Entry>>)
      requires Valid() && state == W.Play(start, past)
      modifies this
      ensures Valid() && state == W.Play(start, events)
      ensures running == (old(running) && !stop)
      ensures W.Arrived(events) == W.Arrived(past) + arrivals && queue == old(queue) + arrivals
      ensures state.pc == old(state).pc && state.size == old(state).size
      ensures state.hand == old(state).hand && state.handled == old(state).handled
    {
      hide W.ThreadInv, W.Play, W.Arrived;
      events := past;
      var i := 0;
      while i < |arrivals|
        invariant i <= |arrivals| && Valid() && running == old(running) && state == W.Play(start, events)
        invariant W.Arrived(events) == W.Arrived(past) + arrivals[..i] && queue == old(queue) + arrivals[..i]
        invariant state.pc == old(state).pc && state.size == old(state).size
        invariant state.hand == old(state).hand && state.handled == old(state).handled
      {
        AddPkt(arrivals[i]);
        W.PlayMore(start, events, W.Queued(arrivals[i]));
        events := events + [W.Queued(arrivals[i])];
        assert arrivals[..i + 1] == arrivals[..i] + [arrivals[i]];
        i := i + 1;
      }
      if stop {
        W.StopKeepsInv(state);
        W.PlayMore(start, events, W.Stopped);
        running := false;
        state := state.(running := false);
        events := events + [W.Stopped];
      }
    }

    /** A step of the consumer that leaves the queue as it is. */
    ghost method Tick(start: W.Thread<Entry>, past: seq<W.Event<Entry>>) returns (events: seq<W.Event<Entry>>)
      requires Valid() && state == W.Play(start, past) && (state.pc == W.Popping ==> state.size <= 0)
      modifies this`state
      ensures Valid() && state == W.Step(old(state))
      ensures state == W.Play(start, events) && W.Arrived(events) == W.Arrived(past)
    {
      W.StepKeepsInv(state);
      W.PlayMore(start, past, W.Own);
      hide W.ThreadInv;
      events := past + [W.Own];
      state := W.Step(state);
    }

    /** Pop the front packet under the lock. */
    method Pop(ghost start: W.Thread<Entry>, ghost past: seq<W.Event<Entry>>)
      returns (p: Entry, ghost events: seq<W.Event<Entry>>)
      requires Valid() && state == W.Play(start, past) && state.pc == W.Popping && state.size > 0
      modifies this`queue, this`state
      ensures Valid() && old(queue) == [p] + queue && state == W.Step(old(state))
      ensures state.pc == W.Handling && state.hand == [p]
      ensures state == W.Play(start, events) && W.Arrived(events) == W.Arrived(past)
    {
      W.StepKeepsInv(state);
      W.PlayMore(start, past, W.Own);
      p := queue[0];
      queue := queue[1..];
      events := past + [W.Own];
      state := W.Step(state);
      hide W.ThreadInv;
    }

    /** A step of the consumer that leaves the queue as it is, and what other threads do after it. */
    method TickAmid(arrivals: seq<Entry>, stop: bool, ghost start: W.Thread<Entry>, ghost past: seq<W.Event<Entry>>)
      returns (ghost events: seq<W.Event<Entry>>)
      requires Valid() && state == W.Play(start, past) && (state.pc == W.Popping ==> state.size <= 0)
      modifies this
      ensures Valid() && state == W.Play(start, events) && running == (old(running) && !stop)
      ensures exists more :: W.Arrived(events) == W.Arrived(past) + more && queue == old(queue) + more
      ensures var t := W.Step(old(state));
        state.pc == t.pc && state.size == t.size && state.handled == t.handled
    {
      hide W.ThreadInv, W.Play, W.Arrived, W.Step;
      events := Tick(start, past);
      events := Meanwhile(arrivals, stop, start, events);
    }

    /** Pop the front packet, let other threads run, hand it on, and let them run again. */
    method HandleOne(arrivals: seq<Entry>, more: seq<Entry>, stop: bool, stopMore: bool,
                     ghost start: W.Thread<Entry>, ghost past: seq<W.Event<Entry>>)
      returns (p: Entry, ghost events: seq<W.Event<Entry>>)
      requires Valid() && state == W.Play(start, past) && state.pc == W.Popping && state.size > 0
      modifies this
      ensures Valid() && state == W.Play(start, events) && state.pc == W.Popping && state.size == old(state).size - 1
      ensures exists fed :: W.Arrived(events) == W.Arrived(past) + fed && [p] + queue == old(queue) + fed
      ensures state.handled == old(state).handled + [p]
    {
      hide W.ThreadInv, W.Play, W.Arrived;
      p, events := Pop(start, past);
      events := Meanwhile(arrivals, stop, start, events);
      events := TickAmid(more, stopMore, start, events);
      ghost var fed :| W.Arrived(events) == W.Arrived(past) + arrivals + fed &&
                       [p] + queue == old(queue) + arrivals + fed;
      assert W.Arrived(events) == W.Arrived(past) + (arrivals + fed);
      assert [p] + queue == old(queue) + (arrivals + fed);
    }

    /** One turn of HandlePkt's outer loop: take the size, waiting while it is zero, and pop that many packets, handing
        each on outside the lock. Between any two steps other threads may queue packets, others(n) after the n-th
        step, and call Stop, from step stopAt on; a turn to which no packet comes ends only by Stop. Whatever happens,
        it is a run of the worker machine, no packet is lost or reordered, those found waiting are handed on, and
        nothing is handed on only if the thread was stopped or has more packets than an int counts. */
    method HandleTurn(others: nat -> seq<Entry>, stopAt: nat)
      returns (handed: seq<Entry>, ghost events: seq<W.Event<Entry>>)
      requires Valid() && state.pc == W.Top && running
      modifies this
      ensures Valid() && state == W.Play(old(state), events) && state.pc == W.Top
      ensures handed + queue == old(queue) + W.Arrived(events) && state.handled == old(state).handled + handed
      ensures 0 < |old(queue)| <= INT_MAX ==> handed == old(queue)
      ensures handed == [] && |queue| <= INT_MAX ==> !running
    {
      hide W.ThreadInv, W.Play, W.Arrived;
      var size, n;
      size, n, events := AwaitPackets(others, stopAt);
      handed := [];
      events := TickAmid(others(n), stopAt <= n, old(state), events);
      n := n + 1;
      while size > 0
        invariant Valid() && state == W.Play(old(state), events) && state.pc == W.Popping && state.size == size
        invariant handed + queue == old(queue) + W.Arrived(events) && state.handled == old(state).handled + handed
        invariant 0 < |old(queue)| <= INT_MAX ==> |handed| + size == |old(queue)| && 0 <= size
        invariant handed == [] ==> size > 0 || !running || |queue| > INT_MAX
      {
        ghost var before, past, rest := handed, events, queue;
        var p;
        p, events := HandleOne(others(n), others(n + 1), stopAt <= n, stopAt <= n + 1, old(state), events);
        handed := handed + [p];
        OneMore(before, p, rest, queue, old(queue), W.Arrived(past), W.Arrived(events));
        size, n := size - 1, n + 2;
      }
      events := Tick(old(state), events);
      if 0 < |old(queue)| <= INT_MAX {
        Front(handed, queue, old(queue), W.Arrived(events));
      }
    }

    /** Take the size, again and again while it is zero and the thread runs. */
    method AwaitPackets(others: nat -> seq<Entry>, stopAt: nat)
      returns (size: int, n: nat, ghost events: seq<W.Event<Entry>>)
      requires Valid() && state.pc == W.Top && running
      modifies this
      ensures Valid() && state == W.Play(old(state), events)
      ensures state.pc == W.Counted && state.size == size && (size == 0 ==> !running)
      ensures queue == old(queue) + W.Arrived(events) && state.handled == old(state).handled
      ensures 0 < |old(queue)| <= INT_MAX ==> size == |old(queue)|
      ensures size < 0 ==> |queue| > INT_MAX
    {
      W.NothingYet(state);
      hide W.ThreadInv, W.Play, W.Arrived;
      size, n := ToInt32(|queue|), 0;
      events := TickAmid(others(0), stopAt == 0, state, []);
      while size == 0 && running
        invariant Valid() && state == W.Play(old(state), events) && state.pc == W.Counted && state.size == size
        invariant queue == old(queue) + W.Arrived(events) && state.handled == old(state).handled
        invariant running ==> n < stopAt
        invariant 0 < |old(queue)| <= INT_MAX ==> size == |old(queue)|
        invariant size < 0 ==> |queue| > INT_MAX
        decreases stopAt - n
      {
        events := TickAmid(others(n + 1), stopAt <= n + 1, old(state), events);
        size := ToInt32(|queue|);
        events := TickAmid(others(n + 2), stopAt <= n + 2, old(state), events);
        n := n + 2;
      }
      n := n + 1;
    }
  }

  lemma OneMore(handed: seq<Entry>, p: Entry, rest: seq<Entry>, rest': seq<Entry>,
                start: seq<Entry>, arrived: seq<Entry>, arrived': seq<Entry>)
    requires handed + rest == start + arrived
    requires exists fed :: arrived' == arrived + fed && [p] + rest' == rest + fed
    ensures handed + [p] + rest' == start + arrived'
  {
    var fed :| arrived' == arrived + fed && [p] + rest' == rest + fed;
    assert handed + [p] + rest' == handed + ([p] + rest') == handed + rest + fed;
  }

  lemma Front(handed: seq<Entry>, rest: seq<Entry>, start: seq<Entry>, arrived: seq<Entry>)
    requires handed + rest == start + arrived && |handed| == |start|
    ensures handed == start
  {
    assert (handed + rest)[..|handed|] == handed;
    assert (start + arrived)[..|start|] == start;
  }

  /** The worker threads, the running counter, and the handler that is called when there are none. */
  class Dispatcher {
    const threads: seq<PktHandleThread>
    var count: nat
    var delivered: seq<Entry>
    /** Every packet passed to HandlePkt. */
    ghost var log: seq<Entry>

    ghost predicate Valid()
      reads this, threads
    {
      && |threads| <= MAX_THREAD_NUM
      && (forall i | 0 <= i < |threads| :: threads[i].Valid())
      && (forall i, j | 0 <= i < j < |threads| :: threads[i] != threads[j])
      && (threads == [] ==> delivered == log)
    }

    ghost function Pool(): W.Pool<Entry>
      reads this, threads
    {
      W.Pool(seq(|threads|, i requires 0 <= i < |threads| reads threads => threads[i].state), count, log)
    }

    /** SetThreadNum: a number outside 1 .. 64 is ignored. */
    constructor (threadNum: int)
      ensures Valid() && log == []
      ensures |threads| == if 0 < threadNum <= 64 then threadNum else 0
      ensures Pool() == W.NewPool(|threads|)
      ensures forall t | t in threads :: fresh(t)
    {
      var ts: seq<PktHandleThread> := [];
      if 0 < threadNum <= MAX_THREAD_NUM {
        while |ts| < threadNum
          invariant |ts| <= threadNum
          invariant forall i | 0 <= i < |ts| :: fresh(ts[i]) && ts[i].Valid() && ts[i].state == W.NewThread()
          invariant forall i, j | 0 <= i < j < |ts| :: ts[i] != ts[j]
        {
          var t := new PktHandleThread();
          ts := ts + [t];
        }
      }
      threads := ts;
      count, delivered, log := 0, [], [];
    }

    /** Call the handler at once, or queue for the worker the counter selects. */
    method HandlePkt(p: Entry)
      requires Valid()
      modifies this, threads
      ensures Valid() && log == old(log) + [p]
      ensures threads != [] ==> Pool() == W.Next(old(Pool()), W.Dispatch(p)) && delivered == old(delivered)
      ensures threads == [] ==> delivered == old(delivered) + [p]
      ensures threads != [] ==>
        var w := old(count) % 0x1_0000_0000 % |threads|;
        && count == old(count) + 1 && threads[w].queue == old(threads[w].queue) + [p]
        && forall i | 0 <= i < |threads| && i != w :: threads[i].queue == old(threads[i].queue)
    {
      log := log + [p];
      if |threads| == 0 {
        delivered := delivered + [p];
      } else {
        var w := count % WRAP % |threads|;
        count := count + 1;
        threads[w].AddPkt(p);
      }
    }
  }
}
