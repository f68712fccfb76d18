/** The encapsulation of tcpproxy: a client's frame travels to the target with the client's identity in front of
    its payload, and comes back the same way. */
module ProxyFrames {
  import opened Wire
  import opened SocketKey
  import opened Framing
  import opened Chunking
  import opened KeyedLog
  import opened Wrappers
  import opened Remainders

  /** The largest payload whose wrapped frame has a defined length. */
  const MAX_PAYLOAD: int := MAX_LENGTH - KEY_SIZE

  /** The largest payload whose wrapped frame can never push a reassembly buffer past INT_MAX. */
  const MAX_ECHO: int := MAX_SAFE_LENGTH - KEY_SIZE

  /** CServerContentManager::HandlePkt: what is sent upstream for a payload of client k. */
  function Wrap(k: Key, payload: bytes): bytes {
    EncodeI32(ToInt32(|payload| + KEY_SIZE)) + Pack(k) + payload
  }

  /** CClientContentManager::HandlePkt: the client to send to and the frame to send, or nothing. */
  function Unwrap(payload: bytes): Option<Entry>
    requires |payload| <= INT_MAX
  {
    if |payload| <= KEY_SIZE then None
    else Some((Unpack(payload), EncodeI32(|payload| - KEY_SIZE) + payload[KEY_SIZE..]))
  }

  predicate Wrappable(payload: bytes) { 0 < |payload| <= MAX_PAYLOAD }

  /** A wrapped frame is a valid frame, and unwrapping it yields the client and its original frame. */
  lemma UnwrapWrap(k: Key, payload: bytes)
    requires Wrappable(payload)
    ensures IsFrame(Wrap(k, payload)) && |Wrap(k, payload)| == |payload| + KEY_SIZE + HEADER
    ensures Unwrap(Wrap(k, payload)[HEADER..]) == Some((k, FrameOf(payload)))
  {
    hide EncodeI32, DecodeI32, Pack, Unpack;
    var n := |payload| + KEY_SIZE;
    var inner := Pack(k) + payload;
    assert ToInt32(n) == n;
    hide ToInt32;
    SumOfThree(EncodeI32(n), Pack(k), payload);
    I32RoundTrip(n, inner);
    assert (EncodeI32(n) + inner)[HEADER..] == inner;
    UnpackPack(k, payload);
    assert inner[KEY_SIZE..] == payload;
  }

  /** ... and wrapping again what was unwrapped restores the frame, so neither direction loses anything. */
  lemma WrapUnwrap(payload: bytes)
    requires |payload| <= MAX_LENGTH && Unwrap(payload).Some?
    ensures var (k, frame) := Unwrap(payload).value;
      Wrap(k, frame[HEADER..]) == FrameOf(payload)
  {
    hide Unpack, Pack, EncodeI32;
    var id, rest := payload[..KEY_SIZE], payload[KEY_SIZE..];
    assert payload == id + rest;
    UnpackPrefix(payload);
    PackUnpack(id);
    var frame := EncodeI32(|rest|) + rest;
    assert frame[HEADER..] == rest;
    assert ToInt32(|rest| + KEY_SIZE) == |payload|;
    assert EncodeI32(|payload|) + id + rest == EncodeI32(|payload|) + (id + rest);
  }

  /** The bytes of a wrapped payload: the length of what follows, the client's identity, the payload. */
  lemma WrapLayout(k: Key, payload: bytes)
    requires |payload| <= INT_MAX - 14
    ensures var w := Wrap(k, payload);
      && |w| == |payload| + 14 && DecodeI32(w) == |payload| + 10 && w[4..14] == Pack(k) && w[14..] == payload
  {
    hide EncodeI32, DecodeI32, Pack;
    var n := |payload| + 10;
    assert ToInt32(n) == n;
    hide ToInt32;
    SumOfThree(EncodeI32(n), Pack(k), payload);
    I32RoundTrip(n, Pack(k) + payload);
    assert (Pack(k) + payload)[..10] == Pack(k);
  }

  /** What is sent back for a payload that names a client: nothing if there is nothing behind the name. */
  lemma UnwrapLayout(payload: bytes)
    requires |payload| <= INT_MAX
    ensures Unwrap(payload) == None <==> |payload| <= 10
    ensures |payload| > 10 ==>
      var (k, frame) := Unwrap(payload).value;
      Pack(k) == payload[..10] && DecodeI32(frame) == |payload| - 10 && frame[4..] == payload[10..]
  {
    hide EncodeI32, DecodeI32, Pack;
    if |payload| > 10 {
      I32RoundTrip(|payload| - 10, payload[10..]);
      PackUnpack(payload[..10]);
      UnpackPrefix(payload);
    }
  }

  lemma UnpackPrefix(b: bytes)
    requires |b| >= 10
    ensures Unpack(b) == Unpack(b[..10])
  {
  }

  // ---- Whole streams ---------------------------------------------------------------------------

  /** A frame the proxy can forward. */
  predicate Forwardable(frame: bytes) {
    IsFrame(frame) && |frame| <= MAX_PAYLOAD + HEADER
  }

  predicate AllForwardable(log: seq<Entry>) {
    forall i | 0 <= i < |log| :: Forwardable(log[i].1)
  }

  /** What is sent upstream for a frame of client k. */
  function WrapFrame(e: Entry): bytes {
    if |e.1| < HEADER then [] else Wrap(e.0, e.1[HEADER..])
  }

  function WrapAll(log: seq<Entry>): (frames: seq<bytes>)
    ensures |frames| == |log|
    ensures forall i | 0 <= i < |log| :: frames[i] == WrapFrame(log[i])
  {
    seq(|log|, i requires 0 <= i < |log| => WrapFrame(log[i]))
  }

  /** What is sent back to clients for the frames returned by the target. */
  function UnwrapAll(frames: seq<bytes>): seq<Entry> {
    if frames == [] then []
    else
      var n := |frames| - 1;
      UnwrapAll(frames[..n]) + UnwrapFrame(frames[n])
  }

  function UnwrapFrame(frame: bytes): seq<Entry> {
    if HEADER <= |frame| <= INT_MAX then
      match Unwrap(frame[HEADER..])
      case None => []
      case Some(e) => [e]
    else []
  }

  lemma WrapAllStep(log: seq<Entry>, e: Entry)
    ensures WrapAll(log + [e]) == WrapAll(log) + [WrapFrame(e)]
  {
  }

  lemma UnwrapAllStep(frames: seq<bytes>, frame: bytes)
    ensures UnwrapAll(frames + [frame]) == UnwrapAll(frames) + UnwrapFrame(frame)
  {
    assert (frames + [frame])[..|frames|] == frames;
  }

  lemma UnwrapWrapFrame(e: Entry)
    requires Forwardable(e.1)
    ensures IsFrame(WrapFrame(e)) && |WrapFrame(e)| == |e.1| + KEY_SIZE
    ensures UnwrapFrame(WrapFrame(e)) == [e]
  {
    UnwrapWrap(e.0, e.1[HEADER..]);
    FrameIsFrameOf(e.1);
  }

  lemma {:induction false} UnwrapAllWrapAll(log: seq<Entry>)
    requires AllForwardable(log)
    ensures UnwrapAll(WrapAll(log)) == log
  {
    if log != [] {
      var n := |log| - 1;
      var init, e := log[..n], log[n];
      assert log == init + [e];
      UnwrapWrapFrame(e);
      assert AllForwardable(init);
      hide WrapFrame, UnwrapFrame, Forwardable;
      UnwrapAllWrapAll(init);
      WrapAllStep(init, e);
      UnwrapAllStep(WrapAll(init), WrapFrame(e));
    }
  }

  predicate Within(log: seq<Entry>, limit: int) {
    forall i | 0 <= i < |log| :: IsFrame(log[i].1) && |log[i].1| <= limit + HEADER
  }

  /** The reassembly loop as coded, fed the chunks, hands on frames that unwrap to log, and keeps nothing. */
  predicate Restores(chunks: seq<bytes>, log: seq<Entry>) {
    var p := FeedAll(chunks);
    !p.fault && p.residue == [] && UnwrapAll(Frames(p.segments)) == log
  }

  lemma RestoresSafe(log: seq<Entry>, chunks: seq<bytes>)
    requires Within(log, MAX_ECHO) && Chunked(chunks) && Flatten(chunks) == Flatten(WrapAll(log))
    ensures Restores(chunks, log)
  {
    hide IsFrame, FeedAll, Greedy, WrapFrame, UnwrapFrame;
    var frames := WrapAll(log);
    forall i | 0 <= i < |log| ensures IsFrame(frames[i]) && |frames[i]| <= MAX_SAFE_LENGTH + HEADER {
      UnwrapWrapFrame(log[i]);
    }
    FeedAllOfPrefix(chunks, frames);
    UnwrapAllWrapAll(log);
  }

  /** Two frames, the first as long as allowed, wrapped and received so that the last chunk completes both. */
  lemma StuckLog(limit: int) returns (log: seq<Entry>, chunks: seq<bytes>)
    requires MAX_ECHO < limit <= MAX_PAYLOAD
    ensures Within(log, limit) && Chunked(chunks) && Flatten(chunks) == Flatten(WrapAll(log))
    ensures !Restores(chunks, log)
  {
    hide IsFrame, FeedAll, Greedy, Drain, WrapFrame, UnwrapFrame, DecodeI32, Pack, EncodeI32, StuckChunks, Chunked;
    var k := Key(0, 0, 0);
    var short: int := MAX_CHUNK - 1 - KEY_SIZE - HEADER;
    log := [FrameOfZeros(k, limit), FrameOfZeros(k, short)];
    WrappedZeros(k, limit);
    WrappedZeros(k, short);
    var a, b := WrapFrame(log[0]), WrapFrame(log[1]);
    chunks := StuckChunks(a, b);
    StuckIsChunked(a, b);
    assert WrapAll(log) == [a, b];
    assert [a, b][1..] == [b] && Flatten([b]) == b;
    Stuck(a, b);
  }

  function FrameOfZeros(k: Key, n: nat): Entry
    requires n <= INT_MAX
  {
    (k, FrameOf(Zeros(n)))
  }

  lemma WrappedZeros(k: Key, n: nat)
    requires 0 < n <= MAX_PAYLOAD
    ensures IsFrame(FrameOfZeros(k, n).1) && |FrameOfZeros(k, n).1| == n + HEADER
    ensures var w := WrapFrame(FrameOfZeros(k, n));
      IsFrame(w) && |w| == n + KEY_SIZE + HEADER
  {
    FrameOfPayload(Zeros(n));
    UnwrapWrapFrame(FrameOfZeros(k, n));
  }

  /** Wrapping, reassembling from any chunks that recv can return and unwrapping gives back all clients and frames,
      with nothing left over, exactly for payloads of up to MAX_ECHO bytes. */
  lemma ProxyRoundTrip(limit: int)
    requires 0 < limit <= 2_147_483_633
    ensures (forall log: seq<Entry>, chunks: seq<bytes> |
               Within(log, limit) && Chunked(chunks) && Flatten(chunks) == Flatten(WrapAll(log)) :: Restores(chunks, log))
            <==> limit <= 2_147_479_538
  {
    hide Restores, IsFrame, WrapAll;
    if limit <= MAX_ECHO {
      forall log: seq<Entry>, chunks: seq<bytes> |
        Within(log, limit) && Chunked(chunks) && Flatten(chunks) == Flatten(WrapAll(log))
        ensures Restores(chunks, log)
      {
        RestoresSafe(log, chunks);
      }
    } else {
      var log, chunks := StuckLog(limit);
    }
  }

  // ---- Out of order ----------------------------------------------------------------------------

  /** Frames that are all the wrapped form of an entry in log. */
  predicate Wrapped(frames: seq<bytes>, log: seq<Entry>) {
    forall j | 0 <= j < |frames| :: frames[j] in WrapAll(log)
  }

  lemma {:induction false} UnwrapCount(frames: seq<bytes>, log: seq<Entry>, e: Entry)
    requires AllForwardable(log) && Wrapped(frames, log) && Forwardable(e.1)
    ensures multiset(UnwrapAll(frames))[e] == multiset(frames)[WrapFrame(e)]
  {
    hide WrapFrame, UnwrapFrame, Forwardable;
    if frames != [] {
      var n := |frames| - 1;
      UnwrapCount(frames[..n], log, e);
      assert frames[n] in WrapAll(log);
      var j :| 0 <= j < |log| && frames[n] == WrapFrame(log[j]);
      UnwrapWrapFrame(log[j]);
      UnwrapWrapFrame(e);
      assert frames == frames[..n] + [frames[n]];
    }
  }

  lemma {:induction false} UnwrapOnly(frames: seq<bytes>, log: seq<Entry>, e: Entry)
    requires AllForwardable(log) && Wrapped(frames, log) && !Forwardable(e.1)
    ensures e !in UnwrapAll(frames)
  {
    hide WrapFrame, UnwrapFrame, Forwardable;
    if frames != [] {
      var n := |frames| - 1;
      UnwrapOnly(frames[..n], log, e);
      assert frames[n] in WrapAll(log);
      var j :| 0 <= j < |log| && frames[n] == WrapFrame(log[j]);
      UnwrapWrapFrame(log[j]);
    }
  }

  lemma {:induction false} WrapCount(log: seq<Entry>, e: Entry)
    requires AllForwardable(log) && Forwardable(e.1)
    ensures multiset(WrapAll(log))[WrapFrame(e)] == multiset(log)[e]
  {
    hide WrapFrame, UnwrapFrame, Forwardable;
    if log != [] {
      var n := |log| - 1;
      WrapCount(log[..n], e);
      WrapAllStep(log[..n], log[n]);
      assert log == log[..n] + [log[n]];
      UnwrapWrapFrame(log[n]);
      UnwrapWrapFrame(e);
    }
  }

  /** However the wrapped frames come back, unwrapping restores the entries, each as often as its frame came. */
  lemma UnwrapSubset(frames: seq<bytes>, log: seq<Entry>)
    requires AllForwardable(log) && multiset(frames) <= multiset(WrapAll(log))
    ensures multiset(UnwrapAll(frames)) <= multiset(log)
    ensures multiset(frames) == multiset(WrapAll(log)) ==> multiset(UnwrapAll(frames)) == multiset(log)
  {
    hide WrapAll, UnwrapAll, WrapFrame, Forwardable;
    forall j | 0 <= j < |frames| ensures frames[j] in WrapAll(log) {
      var i := SubsetMember(frames, WrapAll(log), j);
    }
    forall e: Entry
      ensures multiset(UnwrapAll(frames))[e] <= multiset(log)[e]
      ensures multiset(frames) == multiset(WrapAll(log)) ==> multiset(UnwrapAll(frames))[e] == multiset(log)[e]
    {
      if Forwardable(e.1) {
        UnwrapCount(frames, log, e);
        WrapCount(log, e);
      } else {
        UnwrapOnly(frames, log, e);
        assert forall i | 0 <= i < |log| :: log[i] != e;
      }
    }
  }

  // ---- The upstream connection of a client -----------------------------------------------------

  /** CTcpProxyClientPool::__Hash, for the non-negative descriptors accept returns. */
  function Upstream(k: Key, concurrency: nat): nat
    requires concurrency > 0
  {
    if k.socket < 0 then 0 else k.socket % concurrency
  }

  /** Clients whose descriptors are consecutive are spread evenly: of any `concurrency` of them each upstream gets
      exactly one. */
  lemma DescriptorsSpread(k: Key, concurrency: nat, i: nat) returns (x: int32)
    requires i < concurrency && 0 <= k.socket && k.socket + concurrency <= 0x8000_0000
    ensures k.socket <= x < k.socket + concurrency && x % concurrency == i
    ensures forall y: int32 | k.socket <= y < k.socket + concurrency ::
              Upstream(k.(socket := y), concurrency) == i <==> y == x
  {
    x := OneInWindow(k.socket, concurrency, i);
  }

  /** The entries whose client uses upstream i. */
  function Routed(log: seq<Entry>, i: nat, concurrency: nat): seq<Entry>
    requires concurrency > 0
  {
    if log == [] then []
    else
      var n := |log| - 1;
      Routed(log[..n], i, concurrency) + if Upstream(log[n].0, concurrency) == i then [log[n]] else []
  }

  lemma RoutedStep(log: seq<Entry>, e: Entry, i: nat, concurrency: nat)
    requires concurrency > 0
    ensures Routed(log + [e], i, concurrency) ==
            Routed(log, i, concurrency) + if Upstream(e.0, concurrency) == i then [e] else []
  {
    assert (log + [e])[..|log|] == log;
  }

  /** A client's entries all take the same upstream, in order. */
  lemma {:induction false} OfRouted(log: seq<Entry>, k: Key, concurrency: nat)
    requires concurrency > 0
    ensures Of(Routed(log, Upstream(k, concurrency), concurrency), k) == Of(log, k)
  {
    if log != [] {
      var n := |log| - 1;
      var i := Upstream(k, concurrency);
      OfRouted(log[..n], k, concurrency);
      assert log == log[..n] + [log[n]];
      OfAppend(log[..n], [log[n]], k);
      if Upstream(log[n].0, concurrency) == i {
        OfAppend(Routed(log[..n], i, concurrency), [log[n]], k);
      } else {
        assert Of([log[n]], k) == [];
        assert Routed(log, i, concurrency) == Routed(log[..n], i, concurrency);
        assert Of(log, k) == Of(log[..n], k);
      }
    }
  }
}
