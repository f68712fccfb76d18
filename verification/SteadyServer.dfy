/** A server whose clients never leave and are only sent to once they have connected: its logs then read as one
    stream per client. */
module SteadyServer {
  import opened Wire
  import opened SocketKey
  import opened Framing
  import opened Chunking
  import opened KeyedLog
  import opened SendPath
  import opened ServerSteps

  /** Steps other than sends and disconnects, full queues included. */
  predicate Allowed(s: Server, a: Action) {
    && Enabled(s, a) && !a.Send? && !a.Lose?
    && (a.TakeAsync? ==> var k := s.calls.batch[0].0; k in s.table ==> !Full(s.table[k].pipe))
  }

  predicate AllKnown(log: seq<Entry>, table: map<Key, Conn>) {
    forall i | 0 <= i < |log| :: log[i].0 in table
  }

  /** Nothing was logged for a client before it was accepted. */
  ghost predicate Fresh(s: Server, k: Key)
    requires k in s.table
  {
    var c := s.table[k];
    && c.base <= |s.calls.done| && Of(s.calls.done[..c.base], k) == []
    && c.cutFrom <= |s.cut| && Of(s.cut[..c.cutFrom], k) == []
  }

  ghost predicate Steady(s: Server) {
    && Inv(s)
    && AllKnown(s.calls.log, s.table) && AllKnown(s.cut, s.table)
    && forall k | k in s.table :: Fresh(s, k) && k.socket >= 0
  }

  lemma {:induction false} UnknownHasNone(log: seq<Entry>, table: map<Key, Conn>, k: Key)
    requires AllKnown(log, table) && k !in table
    ensures Of(log, k) == []
  {
    if log != [] {
      assert AllKnown(log[1..], table);
      UnknownHasNone(log[1..], table, k);
    }
  }

  lemma {:induction false} TagIsKnown(k: Key, parts: seq<bytes>, table: map<Key, Conn>)
    requires k in table
    ensures AllKnown(Tag(k, parts), table)
  {
    if parts != [] {
      TagIsKnown(k, parts[1..], table);
    }
  }

  /** How one allowed step moves the table and the logs. */
  lemma StepGrows(s: Server, a: Action)
    requires Allowed(s, a)
    ensures var t := Next(s, a);
      && s.table.Keys <= t.table.Keys && s.cut <= t.cut && s.calls.done <= t.calls.done
      && t.calls.log == s.calls.log
      && (a.Accept? ==> t.table.Keys == s.table.Keys + {a.k})
      && (!a.Accept? ==> t.table.Keys == s.table.Keys)
      && (a.Receive? ==> t.cut == s.cut + Tag(a.k, Frames(Drain(Content(s, a.k) + a.chunk).segments)))
      && (!a.Receive? ==> t.cut == s.cut)
  {
    hide Drain, Write, Enqueue;
  }

  lemma StepKeepsOrigins(s: Server, a: Action, k: Key)
    requires Allowed(s, a) && k in s.table && k in Next(s, a).table
    requires a.Accept? ==> a.k != k
    ensures var c, d := s.table[k], Next(s, a).table[k];
      d.base == c.base && d.cutFrom == c.cutFrom
  {
    hide Drain, Write, Enqueue;
  }

  lemma StepKeepsSteady(s: Server, a: Action)
    requires Steady(s) && Allowed(s, a)
    ensures Steady(Next(s, a))
  {
    var t := Next(s, a);
    NextKeepsInv(s, a);
    StepGrows(s, a);
    assert a.Accept? ==> a.k !in s.table && a.k.socket >= 0;
    assert a.Receive? ==> a.k in s.table;
    KnownStays(s, a);
    forall k | k in t.table ensures Fresh(t, k) && k.socket >= 0 {
      if a.Accept? && a.k == k {
        AcceptIsFresh(s, k);
      } else {
        assert Fresh(s, k);
        StepKeepsOrigins(s, a, k);
        FreshStays(s, t, k);
      }
    }
  }

  lemma KnownStays(s: Server, a: Action)
    requires Allowed(s, a) && AllKnown(s.calls.log, s.table) && AllKnown(s.cut, s.table)
    ensures AllKnown(Next(s, a).calls.log, Next(s, a).table) && AllKnown(Next(s, a).cut, Next(s, a).table)
  {
    StepGrows(s, a);
    var t := Next(s, a);
    if a.Receive? {
      TagIsKnown(a.k, Frames(Drain(Content(s, a.k) + a.chunk).segments), t.table);
    }
    hide Next, Drain;
  }

  lemma FreshStays(s: Server, t: Server, k: Key)
    requires k in s.table && k in t.table && Fresh(s, k)
    requires s.calls.done <= t.calls.done && s.cut <= t.cut
    requires t.table[k].base == s.table[k].base && t.table[k].cutFrom == s.table[k].cutFrom
    ensures Fresh(t, k)
  {
    hide Of;
    var c := s.table[k];
    assert t.calls.done[..c.base] == s.calls.done[..c.base];
    assert t.cut[..c.cutFrom] == s.cut[..c.cutFrom];
  }

  lemma AcceptIsFresh(s: Server, k: Key)
    requires Steady(s) && k !in s.table
    ensures Fresh(DoAccept(s, k), k)
  {
    hide Steady, Of, AllKnown;
    var done, cut := s.calls.done, s.cut;
    LogsKnown(s);
    KnownStart(done, s.calls.batch, s.calls.functions, s.table);
    UnknownHasNone(done, s.table, k);
    UnknownHasNone(cut, s.table, k);
    assert done[..|done|] == done && cut[..|cut|] == cut;
  }

  lemma LogsKnown(s: Server)
    requires Steady(s)
    ensures s.calls.log == s.calls.done + s.calls.batch + s.calls.functions
    ensures AllKnown(s.calls.log, s.table) && AllKnown(s.cut, s.table)
  {
    hide Lifecycle, AllKnown;
  }

  lemma KnownStart(a: seq<Entry>, b: seq<Entry>, c: seq<Entry>, table: map<Key, Conn>)
    requires AllKnown(a + b + c, table)
    ensures AllKnown(a, table)
  {
    forall i | 0 <= i < |a| ensures a[i].0 in table {
      assert (a + b + c)[i] == a[i];
    }
  }

  lemma SendKeepsSteady(s: Server, e: Entry)
    requires Steady(s) && e.0 in s.table
    ensures Steady(DoSend(s, e.0, e.1))
  {
    var t := DoSend(s, e.0, e.1);
    SendStep(s, e.0, e.1);
    NextKeepsInv(s, Send(e.0, e.1));
    KnownAppend(s.calls.log, e, s.table);
    forall k | k in t.table ensures Fresh(t, k) && k.socket >= 0 {
      assert Fresh(s, k);
      FreshStays(s, t, k);
    }
    hide Inv, DeferredInv, Of, AllKnown;
  }

  lemma KnownAppend(log: seq<Entry>, e: Entry, table: map<Key, Conn>)
    requires AllKnown(log, table) && e.0 in table
    ensures AllKnown(log + [e], table)
  {
  }

  /** A live client's send stream and frames, read off the whole logs. */
  lemma WholeStreams(s: Server, k: Key)
    requires Steady(s) && k in s.table
    ensures ConnSends(s, k) && ConnParses(s, k)
    ensures Stream(s.table[k].pipe) == Payloads(s.calls.done, k)
    ensures InFlight(s, k) == Payloads(s.calls.log, k)
    ensures Frames(FeedAll(s.table[k].chunks).segments) == Of(s.cut, k) && Chunked(s.table[k].chunks)
  {
    assert ConnSends(s, k) && ConnParses(s, k) && Fresh(s, k);
    SendStream(s, k);
    var c, done, log, cut := s.table[k], s.calls.done, s.calls.log, s.cut;
    assert DeferredInv(s.calls);
    hide Inv, Payloads, FeedAll, ValidQueue, Unwritten, Flatten;
    TakeOfSum(done, s.calls.batch, s.calls.functions, c.base);
    WholeTail(done, c.base, k);
    WholeTail(log, c.base, k);
    WholeTail(cut, c.cutFrom, k);
  }

  /** The write queue of a live client holds the last of its calls that have been run. */
  lemma QueueTrails(s: Server, k: Key)
    requires Steady(s) && k in s.table
    ensures PipeInv(s.table[k].pipe) && Trails(s.table[k].pipe.queue, Of(s.calls.done, k))
    ensures Stream(s.table[k].pipe) == Flatten(Of(s.calls.done, k))
    ensures Of(s.calls.done, k) <= Of(s.calls.log, k)
  {
    WholeStreams(s, k);
    assert ConnSends(s, k) && Fresh(s, k) && DeferredInv(s.calls);
    hide Steady, Of, Trails, Flatten, Unwritten, ValidQueue, FeedAll, Frames;
    WholeTail(s.calls.done, s.table[k].base, k);
    StartOfSum(s.calls.done, s.calls.batch, s.calls.functions);
    OfPrefix(s.calls.done, s.calls.log, k);
  }

  lemma TakeOfSum(a: seq<Entry>, b: seq<Entry>, c: seq<Entry>, n: nat)
    requires n <= |a|
    ensures (a + b + c)[..n] == a[..n]
  {
  }

  lemma WholeTail(log: seq<Entry>, base: nat, k: Key)
    requires base <= |log| && Of(log[..base], k) == []
    ensures Of(log, k) == Of(log[base..], k) && Payloads(log, k) == Payloads(log[base..], k)
  {
    assert log == log[..base] + log[base..];
    OfAppend(log[..base], log[base..], k);
  }

  /** What has been written to a client is a prefix of what was submitted for it. */
  lemma WrittenIsPrefix(s: Server, k: Key)
    requires Steady(s) && k in s.table
    ensures s.table[k].pipe.written <= Payloads(s.calls.log, k)
  {
    WholeStreams(s, k);
  }
}
