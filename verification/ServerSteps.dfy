/** CCommonServer as a state machine: the connection table, the reassembly buffers, the deferred send path and the
    callback history. The loop thread's callbacks and other threads' sends are interleaved atomic steps; results
    of accept, recv and write are chosen by the environment. */
module ServerSteps {
  import opened Wire
  import opened SocketKey
  import opened Framing
  import opened Chunking
  import opened KeyedLog
  import opened SendPath

  /** A live connection. The last four fields are history: the chunks received, how many calls had been run and
      how many submitted when it was accepted, and how many frames the server had cut by then. */
  datatype Conn = Conn(pipe: Pipe, chunks: seq<bytes>, base: nat, since: nat, cutFrom: nat)

  /** The callbacks made into the user's data handle, Data once for each frame. With worker threads it is they who
      make the Data callbacks, later; the event is then the dispatch. */
  datatype Event = Connected(key: Key) | Data(key: Key, frame: bytes) | Disconnected(key: Key)

  datatype Server = Server(
    table: map<Key, Conn>,
    contents: map<Key, bytes>,
    calls: Deferred<Entry>,
    events: seq<Event>,
    cut: seq<Entry>)

  const INIT := Server(map[], map[], NoCalls(), [], [])

  datatype Action =
    | Accept(k: Key)
    | Receive(k: Key, chunk: bytes)
    | Lose(k: Key)                  // end of stream, recv or write error, watcher error, idle timeout
    | WriteReady(k: Key, n: nat)    // a WRITE event in which write() accepts n bytes
    | Send(k: Key, data: bytes)     // by any thread, at any moment
    | BeginAsync | SwapAsync | TakeAsync | EndAsync

  function Content(s: Server, k: Key): bytes {
    if k in s.contents then s.contents[k] else []
  }

  predicate Enabled(s: Server, a: Action) {
    match a
    case Accept(k) => s.calls.phase == Idle && k.socket >= 0 && forall k' | k' in s.table :: k'.socket != k.socket
    case Receive(k, chunk) =>
      s.calls.phase == Idle && k in s.table && 0 < |chunk| <= MAX_CHUNK && !Drain(Content(s, k) + chunk).fault
    case Lose(k) => s.calls.phase == Idle && k in s.table
    case WriteReady(k, n) =>
      s.calls.phase == Idle && k in s.table && s.table[k].pipe.wantWrite && CanWrite(s.table[k].pipe, n)
    case Send(k, data) => true
    case BeginAsync => CanBegin(s.calls)
    case SwapAsync => CanSwap(s.calls)
    case TakeAsync => CanTake(s.calls)
    case EndAsync => CanEnd(s.calls)
  }

  /** OnClientDisconnected and its siblings: tell the handler, leave the table, drop the reassembly buffer. */
  function Disconnect(s: Server, k: Key): Server {
    s.(table := s.table - {k}, contents := s.contents - {k}, events := s.events + [Disconnected(k)])
  }

  function DoAccept(s: Server, k: Key): Server {
    var c := Conn(Pipe([], false, []), [], |s.calls.done|, |s.calls.log|, |s.cut|);
    s.(table := s.table[k := c], events := s.events + [Connected(k)])
  }

  function Datas(entries: seq<Entry>): seq<Event> {
    if entries == [] then []
    else
      var n := |entries| - 1;
      Datas(entries[..n]) + [Data(entries[n].0, entries[n].1)]
  }

  function DoReceive(s: Server, k: Key, chunk: bytes): Server
    requires k in s.table
  {
    var c, p := s.table[k], Drain(Content(s, k) + chunk);
    var frames := Tag(k, Frames(p.segments));
    s.(table := s.table[k := c.(chunks := c.chunks + [chunk])],
       contents := s.contents[k := p.residue],
       events := s.events + Datas(frames),
       cut := s.cut + frames)
  }

  function SetPipe(s: Server, k: Key, p: Pipe): Server
    requires k in s.table
  {
    s.(table := s.table[k := s.table[k].(pipe := p)])
  }

  /** __Send on the loop thread: look the client up, then refuse it for a full queue or enqueue. */
  function DoTake(s: Server): Server
    requires CanTake(s.calls)
  {
    var (k, data) := s.calls.batch[0];
    var t := s.(calls := Take(s.calls));
    if k !in s.table then t
    else if Full(s.table[k].pipe) then Disconnect(t, k)
    else SetPipe(t, k, Enqueue(s.table[k].pipe, data))
  }

  /** Sends by other threads, or by a handler, at one moment. */
  function Arrive(s: Server, sends: seq<Entry>): Server {
    s.(calls := SubmitAll(s.calls, sends))
  }

  /** The loop of __AsyncCallback over the batch; others(i) arrive after the call that is the i-th of the callback,
      counting from 1. */
  function RunCalls(s: Server, others: nat -> seq<Entry>, i: nat): Server
    requires s.calls.phase == Draining
    decreases |s.calls.batch|
  {
    if s.calls.batch == [] then s else RunCalls(Arrive(DoTake(s), others(i)), others, i + 1)
  }

  /** One whole call of __AsyncCallback; others(0) arrive before the swap. */
  function RunBatch(s: Server, others: nat -> seq<Entry>): Server
    requires CanBegin(s.calls)
  {
    var s1 := Arrive(s.(calls := Begin(s.calls)), others(0));
    var t := RunCalls(s1.(calls := Swap(s1.calls)), others, 1);
    t.(calls := t.calls.(phase := Idle))
  }

  function DoSend(s: Server, k: Key, data: bytes): Server {
    s.(calls := Submit(s.calls, (k, data)))
  }

  function Next(s: Server, a: Action): Server
    requires Enabled(s, a)
  {
    match a
    case Accept(k) => DoAccept(s, k)
    case Receive(k, chunk) => DoReceive(s, k, chunk)
    case Lose(k) => Disconnect(s, k)
    case WriteReady(k, n) => SetPipe(s, k, Write(s.table[k].pipe, n))
    case Send(k, data) => DoSend(s, k, data)
    case BeginAsync => s.(calls := Begin(s.calls))
    case SwapAsync => s.(calls := Swap(s.calls))
    case TakeAsync => DoTake(s)
    case EndAsync => s.(calls := End(s.calls))
  }

  /** run leads from s to t, every step enabled when it is taken. */
  ghost predicate Follows(s: Server, run: seq<Action>, t: Server)
    decreases |run|
  {
    if run == [] then s == t
    else Enabled(s, run[0]) && Follows(Next(s, run[0]), run[1..], t)
  }

  // ---- The callback history --------------------------------------------------------------------

  /** The clients whose last callback was not a disconnect. */
  function LiveAfter(events: seq<Event>): set<Key> {
    if events == [] then {}
    else Update(LiveAfter(events[..|events| - 1]), events[|events| - 1])
  }

  function Update(live: set<Key>, e: Event): set<Key> {
    if e.Connected? then live + {e.key} else if e.Disconnected? then live - {e.key} else live
  }

  /** Connected only when not live; data and disconnect only when live. */
  predicate Legal(events: seq<Event>) {
    events == [] ||
    (var init, e := events[..|events| - 1], events[|events| - 1];
     Legal(init) && (e.Connected? <==> e.key !in LiveAfter(init)))
  }

  /** The frames of the Data callbacks. */
  function DataOf(events: seq<Event>): seq<Entry> {
    if events == [] then []
    else
      var e := events[|events| - 1];
      DataOf(events[..|events| - 1]) + if e.Data? then [(e.key, e.frame)] else []
  }

  lemma LegalStep(events: seq<Event>, e: Event)
    requires Legal(events) && (e.Connected? <==> e.key !in LiveAfter(events))
    ensures Legal(events + [e])
    ensures LiveAfter(events + [e]) == Update(LiveAfter(events), e)
    ensures DataOf(events + [e]) == DataOf(events) + if e.Data? then [(e.key, e.frame)] else []
  {
    assert (events + [e])[..|events|] == events;
  }

  lemma {:induction false} LegalDatas(events: seq<Event>, entries: seq<Entry>)
    requires Legal(events) && forall i | 0 <= i < |entries| :: entries[i].0 in LiveAfter(events)
    ensures var more := events + Datas(entries);
      Legal(more) && LiveAfter(more) == LiveAfter(events) && DataOf(more) == DataOf(events) + entries
  {
    if entries == [] {
      assert events + [] == events && DataOf(events) + [] == DataOf(events);
    } else {
      hide Legal, LiveAfter, DataOf;
      var n := |entries| - 1;
      var init, e := entries[..n], entries[n];
      LegalDatas(events, init);
      LegalStep(events + Datas(init), Data(e.0, e.1));
      assert events + Datas(entries) == events + Datas(init) + [Data(e.0, e.1)];
      assert DataOf(events) + entries == DataOf(events) + init + [e];
    }
  }

  lemma {:induction false} TagKeys(k: Key, parts: seq<bytes>)
    ensures forall i | 0 <= i < |parts| :: Tag(k, parts)[i].0 == k
  {
    if parts != [] {
      TagKeys(k, parts[1..]);
    }
  }

  /** No callback for k in events[i..j]. */
  predicate Silent(events: seq<Event>, i: nat, j: nat, k: Key) {
    forall m | i <= m < j && m < |events| :: events[m].key != k
  }

  lemma {:induction false} LiveIsLastEvent(events: seq<Event>, i: nat, j: nat)
    requires i < j <= |events| && Silent(events, i + 1, j, events[i].key)
    ensures events[i].key in LiveAfter(events[..j]) <==> !events[i].Disconnected? && (events[i].Connected? || events[i].key in LiveAfter(events[..i]))
    decreases j
  {
    assert events[..j][..j - 1] == events[..j - 1];
    if i + 1 < j {
      LiveIsLastEvent(events, i, j - 1);
    }
  }

  lemma {:induction false} NeverLive(events: seq<Event>, j: nat, k: Key)
    requires j <= |events| && Silent(events, 0, j, k)
    ensures k !in LiveAfter(events[..j])
    decreases j
  {
    if j > 0 {
      assert events[..j][..j - 1] == events[..j - 1];
      NeverLive(events, j - 1, k);
    }
  }

  lemma {:induction false} LegalPrefix(events: seq<Event>, j: nat)
    requires Legal(events) && j <= |events|
    ensures Legal(events[..j])
    decreases |events| - j
  {
    if j < |events| {
      LegalPrefix(events, j + 1);
      assert events[..j + 1][..j] == events[..j];
    } else {
      assert events[..j] == events;
    }
  }

  lemma LegalAt(events: seq<Event>, j: nat)
    requires Legal(events) && j < |events|
    ensures events[j].Connected? <==> events[j].key !in LiveAfter(events[..j])
  {
    LegalPrefix(events, j + 1);
    assert events[..j + 1][..j] == events[..j];
  }

  /** In a legal history each client's callbacks are Connected, then any number of Data, then at most one
      Disconnected, and so on again: the first is Connected, and the next after one at i is Connected exactly
      if the one at i was Disconnected. */
  lemma LegalHistory(events: seq<Event>, i: nat, j: nat)
    requires Legal(events) && j < |events|
    ensures Silent(events, 0, j, events[j].key) ==> events[j].Connected?
    ensures i < j && events[i].key == events[j].key && Silent(events, i + 1, j, events[j].key) ==>
              (events[j].Connected? <==> events[i].Disconnected?)
  {
    LegalAt(events, j);
    if Silent(events, 0, j, events[j].key) {
      NeverLive(events, j, events[j].key);
    }
    if i < j && events[i].key == events[j].key && Silent(events, i + 1, j, events[j].key) {
      LegalAt(events, i);
      LiveIsLastEvent(events, i, j);
    }
  }

  // ---- The invariant ---------------------------------------------------------------------------

  /** What a live connection has been given to write is exactly what has been run for it since it was accepted. */
  ghost predicate ConnSends(s: Server, k: Key)
    requires k in s.table
  {
    var c := s.table[k];
    && PipeInv(c.pipe)
    && c.base <= |s.calls.done| && c.base <= c.since <= |s.calls.log|
    && Stream(c.pipe) == Payloads(s.calls.done[c.base..], k)
    && Trails(c.pipe.queue, Of(s.calls.done[c.base..], k))
    && |c.pipe.queue| <= 1_000_001 && (c.pipe.wantWrite <==> c.pipe.queue != [])
  }

  /** Its reassembly buffer and its frames are those of its own chunks alone. */
  ghost predicate ConnParses(s: Server, k: Key)
    requires k in s.table
  {
    var c := s.table[k];
    var p := FeedAll(c.chunks);
    && c.cutFrom <= |s.cut| && Chunked(c.chunks)
    && !p.fault && p.residue == Content(s, k)
    && Frames(p.segments) == Of(s.cut[c.cutFrom..], k)
  }

  ghost predicate DistinctSockets(s: Server) {
    forall k, k' | k in s.table && k' in s.table :: k.socket == k'.socket ==> k == k'
  }

  ghost predicate Lifecycle(s: Server) {
    && Legal(s.events)
    && LiveAfter(s.events) == s.table.Keys && DataOf(s.events) == s.cut
    && s.contents.Keys <= s.table.Keys
    && DistinctSockets(s)
  }

  ghost predicate Inv(s: Server) {
    && DeferredInv(s.calls)
    && Lifecycle(s)
    && (forall k | k in s.table :: ConnSends(s, k))
    && (forall k | k in s.table :: ConnParses(s, k))
  }

  lemma InitInv()
    ensures Inv(INIT)
  {
  }

  lemma SendStep(s: Server, k: Key, data: bytes)
    ensures Enabled(s, Send(k, data)) && Next(s, Send(k, data)) == DoSend(s, k, data)
  {
  }

  lemma ArriveStep(s: Server, sends: seq<Entry>)
    ensures var t := Arrive(s, sends);
      t.calls.batch == s.calls.batch && t.calls.phase == s.calls.phase && t.table == s.table
  {
  }

  lemma TakeStep(s: Server)
    requires CanTake(s.calls)
    ensures DoTake(s).calls == Take(s.calls)
  {
  }

  lemma ReceiveStep(s: Server, k: Key, chunk: bytes)
    requires Enabled(s, Receive(k, chunk))
    ensures k in s.table && !Drain(Content(s, k) + chunk).fault && Next(s, Receive(k, chunk)) == DoReceive(s, k, chunk)
  {
  }

  lemma AcceptStep(s: Server, k: Key)
    requires Enabled(s, Accept(k))
    ensures k !in s.table && k.socket >= 0 && Next(s, Accept(k)) == DoAccept(s, k)
  {
  }

  lemma CallsKeepInv(s: Server, a: Action)
    requires DeferredInv(s.calls) && Enabled(s, a)
    ensures DeferredInv(Next(s, a).calls)
  {
    CallbackKeepsInv(s.calls);
    if a.Send? {
      SubmitKeepsInv(s.calls, (a.k, a.data));
    }
  }

  lemma DisconnectKeepsLifecycle(s: Server, k: Key)
    requires Lifecycle(s) && k in s.table
    ensures Lifecycle(Disconnect(s, k))
  {
    LegalStep(s.events, Disconnected(k));
  }

  lemma ReceiveKeepsLifecycle(s: Server, k: Key, chunk: bytes)
    requires Lifecycle(s) && k in s.table
    ensures Lifecycle(DoReceive(s, k, chunk))
  {
    hide LiveAfter, Legal, DataOf, Drain, Frames;
    var frames := Frames(Drain(Content(s, k) + chunk).segments);
    TagKeys(k, frames);
    LegalDatas(s.events, Tag(k, frames));
  }

  lemma LifecycleKept(s: Server, a: Action)
    requires Lifecycle(s) && Enabled(s, a)
    ensures Lifecycle(Next(s, a))
  {
    hide LiveAfter, Legal, DataOf;
    match a
    case Accept(k) => LegalStep(s.events, Connected(k));
    case Receive(k, chunk) => ReceiveKeepsLifecycle(s, k, chunk);
    case Lose(k) => DisconnectKeepsLifecycle(s, k);
    case TakeAsync =>
      var k := s.calls.batch[0].0;
      if k in s.table && Full(s.table[k].pipe) {
        DisconnectKeepsLifecycle(s, k);
      }
    case _ =>
  }

  lemma DoneGrows(done: seq<Entry>, e: Entry, base: nat, k: Key)
    requires base <= |done|
    ensures Payloads((done + [e])[base..], k) == Payloads(done[base..], k) + if e.0 == k then e.1 else []
    ensures Of((done + [e])[base..], k) == Of(done[base..], k) + if e.0 == k then [e.1] else []
  {
    assert (done + [e])[base..] == done[base..] + [e];
    OfAppend(done[base..], [e], k);
    PayloadsAppend(done[base..], [e], k);
    PayloadsSingle(e, k);
  }

  lemma SendsKept(s: Server, a: Action, k: Key)
    requires k in s.table ==> ConnSends(s, k)
    requires DeferredInv(s.calls)
    requires Enabled(s, a) && k in Next(s, a).table
    ensures ConnSends(Next(s, a), k)
  {
    match a
    case Accept(k') =>
      assert s.calls.done[|s.calls.done|..] == [];
    case WriteReady(k', n) =>
      if k == k' {
        WriteStream(s.table[k].pipe, n);
        WriteTrails(s.table[k].pipe, n, Of(s.calls.done[s.table[k].base..], k));
      }
    case TakeAsync => TakeKeepsSends(s, k);
    case _ =>
  }

  lemma TakeKeepsSends(s: Server, k: Key)
    requires k in s.table && ConnSends(s, k)
    requires CanTake(s.calls) && k in DoTake(s).table
    requires DeferredInv(s.calls)
    ensures ConnSends(DoTake(s), k)
  {
    hide Payloads, Of, Trails, Enqueue;
    var c, e := s.table[k], s.calls.batch[0];
    var sent, t := Of(s.calls.done[c.base..], k), DoTake(s);
    DoneGrows(s.calls.done, e, c.base, k);
    assert t.calls.done == s.calls.done + [e];
    if e.0 == k {
      EnqueueStream(c.pipe, e.1);
      EnqueueTrails(c.pipe, e.1, sent);
      EnqueueEffect(c.pipe, e.1);
      assert t.table[k] == c.(pipe := Enqueue(c.pipe, e.1));
    } else {
      assert t.table[k] == c;
      assert sent + [] == sent && Stream(c.pipe) + [] == Stream(c.pipe);
    }
  }

  lemma CutGrows(cut: seq<Entry>, k: Key, frames: seq<bytes>, from: nat, k': Key)
    requires from <= |cut|
    ensures Of((cut + Tag(k, frames))[from..], k') == Of(cut[from..], k') + if k == k' then frames else []
  {
    assert (cut + Tag(k, frames))[from..] == cut[from..] + Tag(k, frames);
    OfAppend(cut[from..], Tag(k, frames), k');
    OfTag(k, frames, k');
  }

  lemma ParsesKept(s: Server, a: Action, k: Key)
    requires k in s.table ==> ConnParses(s, k)
    requires s.contents.Keys <= s.table.Keys
    requires Enabled(s, a) && k in Next(s, a).table
    ensures ConnParses(Next(s, a), k)
  {
    match a
    case Accept(k') =>
      assert s.cut[|s.cut|..] == [];
    case Receive(k', chunk) => ReceiveKeepsParses(s, k', chunk, k);
    case _ =>
  }

  lemma ReceiveKeepsParses(s: Server, k': Key, chunk: bytes, k: Key)
    requires k in s.table && k' in s.table && ConnParses(s, k)
    requires 0 < |chunk| <= MAX_CHUNK && !Drain(Content(s, k') + chunk).fault
    ensures ConnParses(DoReceive(s, k', chunk), k)
  {
    hide Drain, Frames, FeedAll, Of;
    var q, c := Drain(Content(s, k') + chunk), s.table[k];
    CutGrows(s.cut, k', Frames(q.segments), c.cutFrom, k);
    if k == k' {
      var p := FeedAll(c.chunks);
      FeedMore(c.chunks, chunk);
      FramesAppend(p.segments, q.segments);
    } else {
      assert Of(s.cut[c.cutFrom..], k) + [] == Of(s.cut[c.cutFrom..], k);
    }
  }

  lemma NextKeepsInv(s: Server, a: Action)
    requires Inv(s) && Enabled(s, a)
    ensures Inv(Next(s, a))
  {
    CallsKeepInv(s, a);
    LifecycleKept(s, a);
    forall k | k in Next(s, a).table ensures ConnSends(Next(s, a), k) && ConnParses(Next(s, a), k) {
      SendsKept(s, a, k);
      ParsesKept(s, a, k);
    }
  }

  /** The invariant holds in every state the server can reach. */
  lemma {:induction false} RunKeepsInv(s: Server, run: seq<Action>, t: Server)
    requires Inv(s) && Follows(s, run, t)
    ensures Inv(t)
    decreases |run|
  {
    if run != [] {
      NextKeepsInv(s, run[0]);
      RunKeepsInv(Next(s, run[0]), run[1..], t);
    }
  }

  /** How many steps of a run are the loop thread's own. */
  function Own(run: seq<Action>): nat {
    if run == [] then 0 else Own(run[..|run| - 1]) + if run[|run| - 1].Send? then 0 else 1
  }

  lemma {:induction false} OwnAppend(a: seq<Action>, b: seq<Action>)
    ensures Own(a + b) == Own(a) + Own(b)
  {
    if b == [] {
      assert a + b == a;
    } else {
      assert (a + b)[..|a + b| - 1] == a + b[..|b| - 1];
      OwnAppend(a, b[..|b| - 1]);
    }
  }

  /** One leg of a run after another. */
  lemma Then(s: Server, run: seq<Action>, t: Server, more: seq<Action>, u: Server) returns (both: seq<Action>)
    requires Follows(s, run, t) && Follows(t, more, u)
    ensures Follows(s, both, u) && Own(both) == Own(run) + Own(more)
  {
    both := run + more;
    FollowsAppend(s, run, t, more, u);
    OwnAppend(run, more);
  }

  lemma OneStep(s: Server, a: Action) returns (run: seq<Action>)
    requires Enabled(s, a) && !a.Send?
    ensures Follows(s, run, Next(s, a)) && Own(run) == 1
  {
    run := [a];
    FollowsStep(s, a);
    assert [a][..0] == [];
  }

  lemma {:induction false} ArriveFollows(s: Server, sends: seq<Entry>) returns (run: seq<Action>)
    ensures Follows(s, run, Arrive(s, sends)) && Own(run) == 0
  {
    run := [];
    if sends != [] {
      var n := |sends| - 1;
      var (k, data) := sends[n];
      run := ArriveFollows(s, sends[..n]);
      assert sends[..n] + [(k, data)] == sends;
      SubmitAllMore(s.calls, sends[..n], (k, data));
      FollowsStep(Arrive(s, sends[..n]), Send(k, data));
      assert [Send(k, data)][..0] == [];
      run := Then(s, run, Arrive(s, sends[..n]), [Send(k, data)], Arrive(s, sends));
    }
  }

  lemma {:induction false} RunCallsFollows(s: Server, others: nat -> seq<Entry>, i: nat) returns (run: seq<Action>)
    requires s.calls.phase == Draining
    ensures Follows(s, run, RunCalls(s, others, i)) && CanEnd(RunCalls(s, others, i).calls)
    ensures Own(run) == |s.calls.batch|
    decreases |s.calls.batch|
  {
    hide Follows, Own;
    run := NoSteps(s);
    if s.calls.batch != [] {
      var t := DoTake(s);
      var u := Arrive(t, others(i));
      run := OneStep(s, TakeAsync);
      var sends := ArriveFollows(t, others(i));
      var rest := RunCallsFollows(u, others, i + 1);
      run := Then(s, run, t, sends, u);
      run := Then(s, run, u, rest, RunCalls(s, others, i));
    }
  }

  lemma NoSteps(s: Server) returns (run: seq<Action>)
    ensures Follows(s, run, s) && Own(run) == 0
  {
    run := [];
  }

  /** A call of __AsyncCallback, whatever other threads send meanwhile, is a run of its atomic steps and their sends:
      one step of its own for each call queued at the swap, and three more. */
  lemma RunBatchFollows(s: Server, others: nat -> seq<Entry>) returns (run: seq<Action>)
    requires CanBegin(s.calls)
    ensures Follows(s, run, RunBatch(s, others))
    ensures Own(run) == |s.calls.functions + others(0)| + 3
  {
    hide Follows, RunCalls, Own;
    var s1 := Next(s, BeginAsync);
    var s2 := Arrive(s1, others(0));
    var s3 := Next(s2, SwapAsync);
    var s4 := RunCalls(s3, others, 1);
    run := OneStep(s, BeginAsync);
    var leg := ArriveFollows(s1, others(0));
    run := Then(s, run, s1, leg, s2);
    leg := OneStep(s2, SwapAsync);
    run := Then(s, run, s2, leg, s3);
    leg := RunCallsFollows(s3, others, 1);
    run := Then(s, run, s3, leg, s4);
    leg := OneStep(s4, EndAsync);
    run := Then(s, run, s4, leg, RunBatch(s, others));
  }

  // ---- What holds in every reachable state -----------------------------------------------------

  /** Over every run, the callback history is legal, its Data are the frames cut, in order, the live clients are those
      of the table, and reassembly buffers exist only for live clients. */
  lemma CallbackHistory(run: seq<Action>, t: Server)
    requires Follows(INIT, run, t)
    ensures Legal(t.events) && DataOf(t.events) == t.cut
    ensures LiveAfter(t.events) == t.table.Keys && t.contents.Keys <= t.table.Keys
  {
    InitInv();
    RunKeepsInv(INIT, run, t);
  }

  /** The calls passed to Send, in order. */
  function Sends(run: seq<Action>): seq<Entry> {
    if run == [] then []
    else
      var a := run[|run| - 1];
      Sends(run[..|run| - 1]) + if a.Send? then [(a.k, a.data)] else []
  }

  /** The chunks received from client k since it was last accepted, and the calls made before that. */
  function ChunksSince(run: seq<Action>, k: Key): seq<bytes> {
    if run == [] then []
    else
      var a := run[|run| - 1];
      if a == Accept(k) then []
      else ChunksSince(run[..|run| - 1], k) + if a.Receive? && a.k == k then [a.chunk] else []
  }

  function SendsBefore(run: seq<Action>, k: Key): seq<Entry> {
    if run == [] then []
    else if run[|run| - 1] == Accept(k) then Sends(run[..|run| - 1])
    else SendsBefore(run[..|run| - 1], k)
  }

  lemma {:induction false} SplitRun(s: Server, run: seq<Action>, t: Server) returns (u: Server)
    requires run != [] && Follows(s, run, t)
    ensures var n := |run| - 1;
      Follows(s, run[..n], u) && Enabled(u, run[n]) && t == Next(u, run[n])
    decreases |run|
  {
    var n := |run| - 1;
    if n == 0 {
      u := s;
    } else {
      hide Next, Enabled;
      u := SplitRun(Next(s, run[0]), run[1..], t);
      assert run[1..][..n - 1] == run[..n][1..] && run[1..][n - 1] == run[n];
    }
  }

  /** What a live client's history is: the chunks are those that arrived since it was accepted, the calls are those that
      were made, in order, and those stale for it were made before it was accepted. */
  ghost predicate Records(s: Server, run: seq<Action>) {
    && s.calls.log == Sends(run)
    && forall k | k in s.table ::
         && s.table[k].chunks == ChunksSince(run, k)
         && s.table[k].since <= |s.calls.log| && s.calls.log[..s.table[k].since] == SendsBefore(run, k)
  }

  lemma RecordMore(init: seq<Action>, a: Action, k: Key)
    ensures Sends(init + [a]) == Sends(init) + if a.Send? then [(a.k, a.data)] else []
    ensures ChunksSince(init + [a], k) ==
              if a == Accept(k) then []
              else ChunksSince(init, k) + if a.Receive? && a.k == k then [a.chunk] else []
    ensures SendsBefore(init + [a], k) == if a == Accept(k) then Sends(init) else SendsBefore(init, k)
  {
    assert (init + [a])[..|init|] == init;
  }

  /** What one step adds to the calls and to the chunks of a client. */
  lemma StepRecords(s: Server, a: Action, k: Key)
    requires Enabled(s, a) && k in Next(s, a).table
    ensures var t := Next(s, a);
      && t.calls.log == s.calls.log + (if a.Send? then [(a.k, a.data)] else [])
      && (a != Accept(k) ==>
            && k in s.table && t.table[k].since == s.table[k].since
            && t.table[k].chunks == s.table[k].chunks + (if a.Receive? && a.k == k then [a.chunk] else []))
      && (a == Accept(k) ==> t.table[k].chunks == [] && t.table[k].since == |s.calls.log|)
  {
    hide Drain, Frames, Write, Enqueue;
    assert s.calls.log + [] == s.calls.log;
    if k in s.table {
      assert s.table[k].chunks + [] == s.table[k].chunks;
    }
  }

  lemma StepLogs(s: Server, a: Action)
    requires Enabled(s, a)
    ensures Next(s, a).calls.log == s.calls.log + if a.Send? then [(a.k, a.data)] else []
  {
    hide Drain, Frames, Write, Enqueue;
    assert s.calls.log + [] == s.calls.log;
  }

  lemma RecordsStep(s: Server, init: seq<Action>, a: Action)
    requires Records(s, init) && Enabled(s, a)
    ensures Records(Next(s, a), init + [a])
  {
    hide Next, Enabled, Sends, ChunksSince, SendsBefore;
    var run, t := init + [a], Next(s, a);
    StepLogs(s, a);
    RecordMore(init, a, Key(0, 0, 0));
    forall k | k in t.table
      ensures t.table[k].chunks == ChunksSince(run, k)
      ensures t.table[k].since <= |t.calls.log| && t.calls.log[..t.table[k].since] == SendsBefore(run, k)
    {
      RecordMore(init, a, k);
      StepRecords(s, a, k);
      assert s.calls.log <= t.calls.log;
    }
  }

  lemma {:induction false} RunRecords(run: seq<Action>, t: Server)
    requires Follows(INIT, run, t)
    ensures Records(t, run)
    decreases |run|
  {
    if run != [] {
      var n := |run| - 1;
      var u := SplitRun(INIT, run, t);
      hide Records, Next, Enabled, Follows;
      RunRecords(run[..n], u);
      RecordsStep(u, run[..n], run[n]);
      assert run == run[..n] + [run[n]];
    }
  }

  /** The environment's choices. Outside the callback: any unused descriptor, any chunk of 1 to 4096 bytes that leads to
      no overflowing length, a loss at any time, any partial write of what is queued. At any time: a send of anything. */
  lemma EnvironmentIsFree(s: Server, k: Key, bytes: bytes, n: nat)
    requires Inv(s)
    ensures Enabled(s, Send(k, bytes))
    ensures s.calls.phase == Idle && k.socket >= 0 && (forall l | l in s.table :: l.socket != k.socket) ==>
              Enabled(s, Accept(k))
    ensures s.calls.phase == Idle && k in s.table ==> Enabled(s, Lose(k))
    ensures s.calls.phase == Idle && k in s.table && 0 < |bytes| <= 4096 && !Drain(Content(s, k) + bytes).fault ==>
              Enabled(s, Receive(k, bytes))
    ensures s.calls.phase == Idle && k in s.table && s.table[k].pipe.queue != [] ==>
              (n <= |s.table[k].pipe.queue[0].data| - s.table[k].pipe.queue[0].pos ==> Enabled(s, WriteReady(k, n)))
  {
    hide Drain, Inv, ValidQueue;
    if k in s.table {
      PipeWanted(s, k);
    }
  }

  lemma PipeWanted(s: Server, k: Key)
    requires Inv(s) && k in s.table
    ensures var p := s.table[k].pipe;
      (p.wantWrite <==> p.queue != []) && (p.queue != [] ==> ValidBuffer(p.queue[0])) && |p.queue| <= 1_000_001
  {
    assert ConnSends(s, k);
  }

  /** WRITE events of a client are wanted exactly while something is queued for it, in every reachable state; so none
      ever finds its queue empty. */
  lemma WritesWantedWhenQueued(run: seq<Action>, t: Server, k: Key)
    requires Follows(INIT, run, t) && k in t.table
    ensures t.table[k].pipe.wantWrite <==> t.table[k].pipe.queue != []
    ensures |t.table[k].pipe.queue| <= 1_000_001
  {
    InitInv();
    RunKeepsInv(INIT, run, t);
    PipeWanted(t, k);
  }

  /** Losing a client takes it, and nobody else, out of the table, drops its bytes and tells the handler. */
  lemma LoseEffect(s: Server, k: Key)
    requires Enabled(s, Lose(k))
    ensures var t := Next(s, Lose(k));
      && k !in t.table && k !in t.contents && t.events == s.events + [Disconnected(k)] && t.calls == s.calls
      && forall l | l != k :: (l in t.table <==> l in s.table) && (l in s.table ==> t.table[l] == s.table[l]) &&
           (l in t.contents <==> l in s.contents) && (l in s.contents ==> t.contents[l] == s.contents[l])
  {
  }

  /** The calls of a batch have been run when it is over, and those sent meanwhile are queued in order. */
  lemma {:induction false} BatchKeepsCalls(s: Server, others: nat -> seq<Entry>, i: nat)
    requires s.calls.phase == Draining
    ensures var t := RunCalls(s, others, i);
      && t.calls.done == s.calls.done + s.calls.batch
      && t.calls.functions == s.calls.functions + Arrivals(others, i, |s.calls.batch|)
    decreases |s.calls.batch|
  {
    if s.calls.batch == [] {
      assert s.calls.done + [] == s.calls.done && s.calls.functions + [] == s.calls.functions;
    } else {
      TakeStep(s);
      hide DoTake;
      var t := Arrive(DoTake(s), others(i));
      BatchKeepsCalls(t, others, i + 1);
      assert s.calls.batch == [s.calls.batch[0]] + s.calls.batch[1..];
      SumOfThree(s.calls.done, [s.calls.batch[0]], s.calls.batch[1..]);
      SumOfThree(s.calls.functions, others(i), Arrivals(others, i + 1, |s.calls.batch| - 1));
    }
  }

  /** One whole callback runs everything queued by the time of the swap, and what is sent afterwards waits. */
  lemma BatchEffect(s: Server, others: nat -> seq<Entry>)
    requires CanBegin(s.calls)
    ensures var t, calls := RunBatch(s, others), s.calls.functions + others(0);
      t.calls.done == s.calls.done + calls && t.calls.functions == Arrivals(others, 1, |calls|)
  {
    hide RunCalls;
    var calls := s.calls.functions + others(0);
    assert s.calls.functions + [] == s.calls.functions;
    var s1 := Arrive(s.(calls := Begin(s.calls)), others(0));
    var s2 := s1.(calls := Swap(s1.calls));
    assert s2.calls.batch == calls && s2.calls.functions == [];
    BatchKeepsCalls(s2, others, 1);
    assert [] + Arrivals(others, 1, |calls|) == Arrivals(others, 1, |calls|);
  }

  /** How often a client's disconnect has been reported. */
  function Reports(events: seq<Event>, k: Key): nat {
    if events == [] then 0
    else Reports(events[..|events| - 1], k) + if events[|events| - 1] == Disconnected(k) then 1 else 0
  }

  lemma ReportsStep(events: seq<Event>, e: Event, k: Key)
    ensures Reports(events + [e], k) == Reports(events, k) + if e == Disconnected(k) then 1 else 0
  {
    assert (events + [e])[..|events|] == events;
  }

  /** What the next call of a batch does to client k. */
  lemma TakeEffect(s: Server, k: Key)
    requires CanTake(s.calls)
    ensures var t, l := DoTake(s), s.calls.batch[0].0;
      && t.calls == Take(s.calls) && t.table.Keys <= s.table.Keys
      && Reports(t.events, k) == Reports(s.events, k) + (if k in s.table && k !in t.table then 1 else 0)
      && (k in s.table ==>
            && (k !in t.table <==> k == l && Full(s.table[k].pipe))
            && (k in t.table ==> |t.table[k].pipe.queue| == |s.table[k].pipe.queue| + if k == l then 1 else 0))
  {
    ReportsStep(s.events, Disconnected(s.calls.batch[0].0), k);
    hide Reports;
  }

  /** Whatever the batch holds and other threads send meanwhile, a client is reported disconnected once if the batch
      makes it leave the table, and not at all otherwise. */
  lemma {:induction false} OverflowReportsOnce(s: Server, others: nat -> seq<Entry>, i: nat, k: Key)
    requires s.calls.phase == Draining
    ensures RunCalls(s, others, i).table.Keys <= s.table.Keys
    ensures Reports(RunCalls(s, others, i).events, k) ==
            Reports(s.events, k) + if k in s.table && k !in RunCalls(s, others, i).table then 1 else 0
    decreases |s.calls.batch|
  {
    hide DoTake, Reports;
    if s.calls.batch != [] {
      TakeEffect(s, k);
      OverflowReportsOnce(Arrive(DoTake(s), others(i)), others, i + 1, k);
    }
  }

  /** ... and it leaves exactly if one of its calls in the batch finds its queue over the limit. */
  lemma {:induction false} BatchOverflows(s: Server, others: nat -> seq<Entry>, i: nat, k: Key)
    requires s.calls.phase == Draining && k in s.table
    ensures var sends, queued := |Of(s.calls.batch, k)|, |s.table[k].pipe.queue|;
      k !in RunCalls(s, others, i).table <==> sends > 0 && queued + sends - 1 > 1_000_000
    decreases |s.calls.batch|
  {
    hide DoTake, Reports;
    if s.calls.batch != [] {
      var t := Arrive(DoTake(s), others(i));
      TakeEffect(s, k);
      OverflowReportsOnce(t, others, i + 1, k);
      if k in t.table {
        BatchOverflows(t, others, i + 1, k);
      }
    }
  }

  /** What a live client will have been sent once everything in flight for it is written. */
  ghost function InFlight(s: Server, k: Key): bytes
    requires k in s.table && ValidQueue(s.table[k].pipe.queue)
  {
    s.table[k].pipe.written + Unwritten(s.table[k].pipe.queue) + Payloads(s.calls.batch, k) + Payloads(s.calls.functions, k)
  }

  /** The send stream: bytes written, bytes queued on the connection, and this client's calls in the batch and in
      m_Functions are, in this order, the payloads submitted for it from the first call not yet run when it was
      accepted. */
  lemma SendStream(s: Server, k: Key)
    requires Inv(s) && k in s.table
    ensures ConnSends(s, k)
    ensures InFlight(s, k) == Payloads(s.calls.log[s.table[k].base..], k)
  {
    assert ConnSends(s, k);
    var c, d := s.table[k], s.calls;
    hide Payloads, ValidQueue, Unwritten;
    LogTail(d.done, d.batch, d.functions, c.base, k);
  }

  lemma LogTail(done: seq<Entry>, batch: seq<Entry>, functions: seq<Entry>, base: nat, k: Key)
    requires base <= |done|
    ensures Payloads((done + batch + functions)[base..], k)
         == Payloads(done[base..], k) + Payloads(batch, k) + Payloads(functions, k)
  {
    var tail := done[base..];
    assert (done + batch + functions)[base..] == tail + batch + functions;
    PayloadsAppend(tail + batch, functions, k);
    PayloadsAppend(tail, batch, k);
  }

  /** Calls submitted before the client was accepted but not yet run at that moment. */
  ghost function Stale(s: Server, k: Key): bytes
    requires k in s.table && ConnSends(s, k)
  {
    Payloads(s.calls.log[s.table[k].base..s.table[k].since], k)
  }

  /** The client is sent exactly what was submitted since it connected if and only if no stale payload for its key
      was still queued when it connected. */
  lemma SendStreamSinceConnected(s: Server, k: Key)
    requires Inv(s) && k in s.table
    ensures ConnSends(s, k)
    ensures InFlight(s, k) == Payloads(s.calls.log[s.table[k].since..], k) <==> Stale(s, k) == []
  {
    hide Payloads, ValidQueue, Unwritten;
    SendStream(s, k);
    SplitLog(s.calls.log, s.table[k].base, s.table[k].since, k);
  }

  lemma SplitLog(log: seq<Entry>, base: nat, since: nat, k: Key)
    requires base <= since <= |log|
    ensures Payloads(log[base..], k) == Payloads(log[base..since], k) + Payloads(log[since..], k)
  {
    assert log[base..] == log[base..since] + log[since..];
    PayloadsAppend(log[base..since], log[since..], k);
  }

  lemma NothingBefore(log: seq<Entry>, base: nat, since: nat, k: Key)
    requires base <= since <= |log| && Of(log[..since], k) == []
    ensures Payloads(log[base..since], k) == [] && Payloads(log, k) == Payloads(log[since..], k)
  {
    assert log[..since] == log[..base] + log[base..since];
    OfAppend(log[..base], log[base..since], k);
    assert log == log[..since] + log[since..];
    OfAppend(log[..since], log[since..], k);
    assert [] + Of(log[since..], k) == Of(log[since..], k);
  }

  /** In particular for a key that was first used after it was announced. */
  lemma SendStreamOfFreshKey(s: Server, k: Key)
    requires Inv(s) && k in s.table && s.table[k].since <= |s.calls.log|
    requires Of(s.calls.log[..s.table[k].since], k) == []
    ensures ConnSends(s, k)
    ensures InFlight(s, k) == Payloads(s.calls.log, k)
  {
    SendStreamSinceConnected(s, k);
    NothingBefore(s.calls.log, s.table[k].base, s.table[k].since, k);
  }

  lemma {:induction false} FollowsAppend(s: Server, run: seq<Action>, t: Server, more: seq<Action>, u: Server)
    requires Follows(s, run, t) && Follows(t, more, u)
    ensures Follows(s, run + more, u)
    decreases |run|
  {
    if run == [] {
      assert run + more == more;
    } else {
      FollowsAppend(Next(s, run[0]), run[1..], t, more, u);
      assert (run + more)[1..] == run[1..] + more;
    }
  }

  lemma FollowsStep(s: Server, a: Action)
    requires Enabled(s, a)
    ensures Follows(s, [a], Next(s, a))
  {
    assert [a][1..] == [];
  }

  /** Without that, the property fails: bytes submitted for a client that has gone are written to the next client
      that gets the same address, port and descriptor. */
  lemma StaleSendReachesNewClient(k: Key, data: bytes) returns (run: seq<Action>, t: Server)
    requires k.socket >= 0 && data != []
    ensures Follows(INIT, run, t)
    ensures run == [Accept(k), Send(k, data), Lose(k), Accept(k)] +
                   [BeginAsync] + [SwapAsync] + [TakeAsync] + [EndAsync] + [WriteReady(k, |data|)]
    ensures k in t.table && t.table[k].pipe.written == data && t.table[k].since == |t.calls.log|
  {
    hide Follows;
    var s4 := StaleSetup(k, data);
    run, t := [Accept(k), Send(k, data), Lose(k), Accept(k)], s4;
    run, t := Extend(run, t, BeginAsync);
    run, t := Extend(run, t, SwapAsync);
    run, t := Extend(run, t, TakeAsync);
    assert t.table[k].pipe.queue == [Buffer(data, 0)];
    run, t := Extend(run, t, EndAsync);
    assert data[0..][..|data|] == data;
    run, t := Extend(run, t, WriteReady(k, |data|));
  }

  lemma Extend(run: seq<Action>, s: Server, a: Action) returns (run': seq<Action>, t: Server)
    requires Follows(INIT, run, s) && Enabled(s, a)
    ensures run' == run + [a] && t == Next(s, a) && Follows(INIT, run', t)
  {
    run', t := run + [a], Next(s, a);
    FollowsStep(s, a);
    FollowsAppend(INIT, run, s, [a], t);
  }

  lemma SentTo(k: Key, data: bytes) returns (t: Server)
    requires k.socket >= 0
    ensures Follows(INIT, [Accept(k), Send(k, data)], t)
    ensures t.calls == Deferred([(k, data)], true, Idle, [], [(k, data)], [])
    ensures t.table.Keys == {k} && t.cut == []
  {
    assert Follows(INIT, [], INIT);
    hide Follows;
    var run, s1 := Extend([], INIT, Accept(k));
    assert run == [Accept(k)];
    run, t := Extend(run, s1, Send(k, data));
    assert run == [Accept(k), Send(k, data)];
  }

  lemma StaleSetup(k: Key, data: bytes) returns (t: Server)
    requires k.socket >= 0
    ensures Follows(INIT, [Accept(k), Send(k, data), Lose(k), Accept(k)], t)
    ensures t.calls == Deferred([(k, data)], true, Idle, [], [(k, data)], [])
    ensures t.table == map[k := Conn(Pipe([], false, []), [], 0, 1, 0)]
  {
    hide Follows;
    var s2 := SentTo(k, data);
    var run, s3 := Extend([Accept(k), Send(k, data)], s2, Lose(k));
    assert run == [Accept(k), Send(k, data), Lose(k)];
    assert s3.table == map[];
    run, t := Extend(run, s3, Accept(k));
    assert run == [Accept(k), Send(k, data), Lose(k), Accept(k)];
  }

  /** The frames handed on for a live client since it connected. */
  ghost function FramesSince(s: Server, k: Key): seq<bytes>
    requires k in s.table && s.table[k].cutFrom <= |s.cut|
  {
    Of(s.cut[s.table[k].cutFrom..], k)
  }

  /** Frames and residue depend on the client's own chunks alone, bad lengths included, whatever other clients do:
      any two reachable states of any two servers that received the same chunks agree on them. */
  lemma Isolation(s: Server, t: Server, k: Key, k': Key)
    requires Inv(s) && Inv(t) && k in s.table && k' in t.table
    requires s.table[k].chunks == t.table[k'].chunks
    ensures ConnParses(s, k) && ConnParses(t, k')
    ensures FramesSince(s, k) == FramesSince(t, k') == Frames(FeedAll(s.table[k].chunks).segments)
    ensures Content(s, k) == Content(t, k') == FeedAll(s.table[k].chunks).residue
  {
    hide FeedAll, Frames;
    assert ConnParses(s, k) && ConnParses(t, k');
  }

  /** ... and on its own bytes alone, however they were chunked, if they meet no bad length and none that can stall. */
  lemma IsolationOfCleanStreams(s: Server, t: Server, k: Key, k': Key)
    requires Inv(s) && Inv(t) && k in s.table && k' in t.table
    requires Flatten(s.table[k].chunks) == Flatten(t.table[k'].chunks)
    requires Clean(Greedy(Flatten(s.table[k].chunks))) && LengthsUpTo(Flatten(s.table[k].chunks), MAX_SAFE_LENGTH)
    ensures ConnParses(s, k) && ConnParses(t, k')
    ensures FramesSince(s, k) == FramesSince(t, k') == Frames(Greedy(Flatten(s.table[k].chunks)).segments)
    ensures Content(s, k) == Content(t, k') == Greedy(Flatten(s.table[k].chunks)).residue
  {
    assert ConnParses(s, k) && ConnParses(t, k');
    hide FeedAll, Frames, Greedy, LengthsUpTo;
    SafeStream(s.table[k].chunks);
    SafeStream(t.table[k'].chunks);
  }

  /** A reassembly buffer never outlives its connection, so a client reusing a key starts with an empty one. */
  lemma NewClientStartsEmpty(s: Server, k: Key)
    requires Inv(s) && Enabled(s, Accept(k))
    ensures s.contents.Keys <= s.table.Keys
    ensures Content(Next(s, Accept(k)), k) == []
  {
    assert k !in s.table;
  }

  /** Steps of the send path that carry bytes forward. */
  predicate Delivers(s: Server, a: Action) {
    match a
    case WriteReady(k, n) => k in s.table && Progress(s.table[k].pipe, n)
    case _ => a.BeginAsync? || a.SwapAsync? || a.TakeAsync? || a.EndAsync?
  }

  ghost predicate Undelivered(s: Server) {
    s.calls.functions != [] || s.calls.batch != [] || exists k | k in s.table :: s.table[k].pipe.queue != []
  }

  /** No stranded data: while anything is undelivered, some event that carries it forward is enabled. */
  lemma NoStrandedData(s: Server) returns (a: Action)
    requires Inv(s) && Undelivered(s)
    ensures Enabled(s, a) && Delivers(s, a)
  {
    match s.calls.phase
    case Entered => a := SwapAsync;
    case Draining => a := if s.calls.batch != [] then TakeAsync else EndAsync;
    case Idle =>
      if s.calls.functions != [] {
        a := BeginAsync;
      } else {
        var k :| k in s.table && s.table[k].pipe.queue != [];
        assert ConnSends(s, k);
        a := WriteReady(k, |Rest(s.table[k].pipe.queue[0])|);
      }
  }
}
