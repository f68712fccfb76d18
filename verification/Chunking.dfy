/** The calls of __AddContent over a whole connection, as coded, in whatever chunks recv returns the stream. */
module Chunking {
  import opened Wire
  import opened Framing

  const EMPTY := Parse([], [], false)

  /** One call of __AddContent on a client whose history so far is p. */
  function Feed(p: Parse, chunk: bytes): Parse {
    if p.fault then p
    else
      var q := Drain(p.residue + chunk);
      Parse(p.segments + q.segments, q.residue, q.fault)
  }

  /** All the calls of a connection. */
  function FeedAll(chunks: seq<bytes>): Parse {
    if chunks == [] then EMPTY
    else Feed(FeedAll(chunks[..|chunks| - 1]), chunks[|chunks| - 1])
  }

  // ---- All the calls of a connection -----------------------------------------------------------

  /** Chunks that recv can return. */
  predicate Chunked(chunks: seq<bytes>) {
    forall i | 0 <= i < |chunks| :: 0 < |chunks[i]| <= MAX_CHUNK
  }

  lemma FeedMore(chunks: seq<bytes>, chunk: bytes)
    ensures FeedAll(chunks + [chunk]) == Feed(FeedAll(chunks), chunk)
  {
    assert (chunks + [chunk])[..|chunks|] == chunks;
  }

  /** chunks without its last. */
  lemma SplitLast(chunks: seq<bytes>) returns (init: seq<bytes>, last: bytes)
    requires chunks != []
    ensures chunks == init + [last] && init == chunks[..|chunks| - 1] && Flatten(chunks) == Flatten(init) + last
    ensures FeedAll(chunks) == Feed(FeedAll(init), last)
    ensures Chunked(chunks) ==> Chunked(init) && 0 < |last| <= MAX_CHUNK
  {
    init, last := chunks[..|chunks| - 1], chunks[|chunks| - 1];
    assert chunks == init + [last];
    FlattenSingle(init, last);
    FeedMore(init, last);
  }

  /** Whatever arrives, and however it is cut, stalled buffers and bad lengths included: no byte is lost, duplicated or
      reordered, each delivered frame is a length and that many bytes, each discarded stretch starts with a
      non-positive length, and only an overflowing length is a fault. */
  lemma {:induction false} FeedAllAccounts(chunks: seq<bytes>)
    ensures Accounts(FeedAll(chunks), Flatten(chunks)) && Kept(FeedAll(chunks).residue)
  {
    if chunks != [] {
      var init, last := SplitLast(chunks);
      FeedAllAccounts(init);
      hide Drain, Kept, Accounts;
      var p := FeedAll(init);
      if p.fault {
        FaultStays(p, Flatten(init), last);
      } else {
        DrainAccounts(p.residue + last);
        AccountAppend(p, Drain(p.residue + last), Flatten(init), last);
      }
    }
  }

  /** The frames delivered before the first discarded byte are always the stream's own, in order, however the stream
      is cut and whatever its lengths: a stall can only delay them. As more of the stream arrives, they grow. */
  lemma FramesOnlyDelayed(chunks: seq<bytes>, whole: bytes)
    requires Flatten(chunks) <= whole
    ensures LeadingFrames(FeedAll(chunks).segments) <= LeadingFrames(Greedy(whole).segments)
    ensures Clean(Greedy(whole)) ==>
      Clean(FeedAll(chunks)) && Frames(FeedAll(chunks).segments) <= Frames(Greedy(whole).segments)
  {
    FeedAllAccounts(chunks);
    var p := FeedAll(chunks);
    SumPrefix(Images(p.segments), p.residue);
    LeadsGreedy(p.segments, whole);
    if Clean(Greedy(whole)) {
      LeadingOfFrames(p.segments);
      LeadingOfFrames(Greedy(whole).segments);
      if p.fault {
        NoOverflow(Flatten(chunks), whole, |Images(p.segments)|);
      }
    }
  }

  lemma SumPrefix(a: bytes, b: bytes)
    ensures a <= a + b
  {
  }

  lemma NoOverflow(s: bytes, whole: bytes, n: nat)
    requires s <= whole && n <= |s| && Overflows(s[n..])
    ensures Greedy(whole[n..]).fault
  {
    assert whole == s + whole[|s|..];
    assert whole[n..] == s[n..] + whole[|s|..];
    DecodeI32Prefix(s[n..], whole[|s|..]);
  }

  lemma {:induction false} LeadingOfFrames(segments: seq<Segment>)
    requires AllFrames(segments)
    ensures LeadingFrames(segments) == Frames(segments) && |Frames(segments)| == |segments|
  {
    if segments != [] {
      LeadingOfFrames(segments[1..]);
    }
  }

  lemma {:induction false} FeedAllExtends(a: seq<bytes>, b: seq<bytes>)
    ensures FeedAll(a).segments <= FeedAll(a + b).segments
  {
    if b == [] {
      assert a + b == a;
    } else {
      var n := |b| - 1;
      hide Drain;
      FeedAllExtends(a, b[..n]);
      assert a + b == a + b[..n] + [b[n]];
      FeedMore(a + b[..n], b[n]);
      FeedExtends(FeedAll(a + b[..n]), b[n]);
    }
  }

  lemma FeedExtends(p: Parse, chunk: bytes)
    ensures p.segments <= Feed(p, chunk).segments
  {
  }

  // ---- Streams of safe lengths -----------------------------------------------------------------

  /** The lengths in s, up to the first bad one, are at most limit: those of its frames and that of its residue. */
  ghost predicate LengthsUpTo(s: bytes, limit: int) {
    var p := Greedy(s);
    (forall f | f in LeadingFrames(p.segments) :: |f| <= limit + HEADER) && LengthUpTo(p.residue, limit)
  }

  lemma LengthOfResidue(r: bytes, t: bytes, limit: int)
    requires Incomplete(r) && LengthsUpTo(r + t, limit)
    ensures LengthUpTo(r, limit)
  {
    if |r| > HEADER {
      DecodeI32Prefix(r, t);
      if HasFrame(r + t) {
        var frame, rest := SplitHead(r + t);
        DecodeI32Prefix(frame, rest);
        PrependFacts(Frame(frame), Greedy(rest));
        assert frame in LeadingFrames(Greedy(r + t).segments);
      }
    }
  }

  lemma PrefixUpTo(s: bytes, t: bytes, limit: int)
    requires LengthsUpTo(s + t, limit)
    ensures LengthsUpTo(s, limit)
  {
    var p := Greedy(s);
    if Clean(p) {
      GreedyResumes(s, t);
      var q := Greedy(p.residue + t);
      LeadingFramesAppend(p.segments, q.segments);
      GreedyAccounts(s);
      assert LengthsUpTo(p.residue + t, limit);
      LengthOfResidue(p.residue, t, limit);
    } else {
      GreedyStopped(s, t);
    }
  }

  /** Safe frames are what LengthsUpTo says. */
  lemma FramesUpTo(frames: seq<bytes>, s: bytes, limit: int)
    requires AllValid(frames) && (forall i | 0 <= i < |frames| :: |frames[i]| <= limit + HEADER)
    requires s <= Flatten(frames)
    ensures LengthsUpTo(s, limit)
  {
    GreedyIsUnique(frames, []);
    assert Flatten(frames) + [] == Flatten(frames);
    assert Flatten(frames) == s + Flatten(frames)[|s|..];
    PrefixUpTo(s, Flatten(frames)[|s|..], limit);
  }

  /** s is valid frames followed by a non-positive length and at least two bytes more. */
  ghost predicate BadTail(s: bytes, frames: seq<bytes>, tail: bytes) {
    AllValid(frames) && s == Flatten(frames) + tail && |tail| > HEADER + 1 && DecodeI32(tail) <= 0
  }

  ghost predicate HasBadTail(s: bytes) {
    exists frames: seq<bytes>, tail: bytes :: BadTail(s, frames, tail)
  }

  lemma BadTailGrows(s: bytes, t: bytes)
    requires HasBadTail(s)
    ensures HasBadTail(s + t)
  {
    var frames: seq<bytes>, tail: bytes :| BadTail(s, frames, tail);
    SumOfThree(Flatten(frames), tail, t);
    DecodeI32Prefix(tail, t);
    assert BadTail(s + t, frames, tail + t);
  }

  /** One more chunk while the stream is clean. */
  lemma SafeStep(s: bytes, chunk: bytes)
    requires Clean(Greedy(s)) && LengthsUpTo(s, MAX_SAFE_LENGTH) && |chunk| <= MAX_CHUNK
    ensures Feed(Greedy(s), chunk) == Greedy(s + chunk)
  {
    GreedyAccounts(s);
    GreedyResumes(s, chunk);
    hide Greedy, Drain, AllFrames;
    SafePending(Greedy(s).residue, chunk);
  }

  /** What is known of the coded calls on a stream of safe lengths: the frames before any discard are the stream's, and
      so is the whole result unless a discarded tail could be cut in two. */
  ghost predicate Faithful(p: Parse, s: bytes) {
    && (Clean(p) <==> Clean(Greedy(s)))
    && LeadingFrames(p.segments) == LeadingFrames(Greedy(s).segments)
    && (Clean(Greedy(s)) || !HasBadTail(s) ==> p == Greedy(s))
  }

  lemma StaysClean(p: Parse, s: bytes, chunk: bytes)
    requires Faithful(p, s) && Clean(Greedy(s)) && LengthsUpTo(s, MAX_SAFE_LENGTH) && |chunk| <= MAX_CHUNK
    ensures Faithful(Feed(p, chunk), s + chunk)
  {
    hide Greedy, Feed, LengthsUpTo, AllFrames, LeadingFrames, HasBadTail;
    SafeStep(s, chunk);
  }

  lemma StaysStopped(p: Parse, s: bytes, chunk: bytes)
    requires Faithful(p, s) && !Clean(Greedy(s)) && chunk != []
    ensures Faithful(Feed(p, chunk), s + chunk)
  {
    hide Greedy, Drain, DecodeI32, AllFrames, LeadingFrames, HasBadTail;
    GreedyStopped(s, chunk);
    if !p.fault {
      var q := Drain(p.residue + chunk);
      LeadingFramesAppend(p.segments, q.segments);
      AllFramesAppend(p.segments, q.segments);
    }
    if HasBadTail(s) {
      BadTailGrows(s, chunk);
    }
    if !Greedy(s).fault {
      DiscardGrows(s, chunk);
    }
  }

  lemma DiscardGrows(s: bytes, chunk: bytes)
    requires !Clean(Greedy(s)) && !Greedy(s).fault && chunk != []
    ensures HasBadTail(s + chunk)
  {
    hide Greedy, DecodeI32, AllFrames;
    GreedyStopped(s, chunk);
    var frames, tail := BeforeDiscard(s + chunk);
    assert BadTail(s + chunk, frames, tail);
  }

  lemma {:induction false} SafeStream(chunks: seq<bytes>)
    requires Chunked(chunks) && LengthsUpTo(Flatten(chunks), MAX_SAFE_LENGTH)
    ensures Faithful(FeedAll(chunks), Flatten(chunks))
  {
    if chunks != [] {
      var init, last := SplitLast(chunks);
      hide Feed, Greedy, LengthsUpTo, AllFrames, Faithful, FeedAll, Flatten, Chunked;
      PrefixUpTo(Flatten(init), last, MAX_SAFE_LENGTH);
      SafeStream(init);
      if Clean(Greedy(Flatten(init))) {
        StaysClean(FeedAll(init), Flatten(init), last);
      } else {
        StaysStopped(FeedAll(init), Flatten(init), last);
      }
    }
  }

  /** tail is what is left of s after the given frames, and is discarded. */
  ghost predicate EndsIn(s: bytes, frames: seq<bytes>, tail: bytes) {
    && AllValid(frames) && s == Flatten(frames) + tail
    && |tail| > HEADER && DecodeI32(tail) <= 0 && Last(Greedy(s)) == Discard(tail)
  }

  /** What a discarded tail comes after. */
  lemma {:induction false} BeforeDiscard(s: bytes) returns (frames: seq<bytes>, tail: bytes)
    requires !Clean(Greedy(s)) && !Greedy(s).fault
    ensures EndsIn(s, frames, tail)
  {
    hide EndsIn;
    if HasFrame(s) {
      var frame, rest := SplitHead(s);
      PrependFacts(Frame(frame), Greedy(rest));
      var more;
      more, tail := BeforeDiscard(rest);
      frames := [frame] + more;
      EndsInMore(frame, rest, more, tail);
    } else {
      frames, tail := [], s;
      AllDiscarded(s);
    }
  }

  lemma AllDiscarded(s: bytes)
    requires !HasFrame(s) && !Clean(Greedy(s)) && !Greedy(s).fault
    ensures EndsIn(s, [], s)
  {
    assert Flatten<byte>([]) + s == s;
  }

  lemma EndsInMore(frame: bytes, rest: bytes, frames: seq<bytes>, tail: bytes)
    requires IsFrame(frame) && EndsIn(rest, frames, tail)
    requires !Clean(Greedy(rest)) && !Greedy(rest).fault
    ensures EndsIn(frame + rest, [frame] + frames, tail)
  {
    hide Greedy, IsFrame, DecodeI32;
    GreedyStep(frame, rest);
    GreedyStopped(rest, []);
    assert ([frame] + frames)[1..] == frames;
    SumOfThree(frame, Flatten(frames), tail);
  }

  // ---- Streams with a bad tail -----------------------------------------------------------------

  /** One way for recv to return the bytes s. */
  function Chop(s: bytes): seq<bytes> {
    if s == [] then []
    else if |s| <= MAX_CHUNK then [s]
    else [s[..MAX_CHUNK]] + Chop(s[MAX_CHUNK..])
  }

  lemma {:induction false} ChopIsChunked(s: bytes)
    ensures Flatten(Chop(s)) == s && Chunked(Chop(s))
  {
    if |s| > MAX_CHUNK {
      ChopIsChunked(s[MAX_CHUNK..]);
      assert s == s[..MAX_CHUNK] + s[MAX_CHUNK..];
    } else if s != [] {
      assert [s][1..] == [];
    }
  }

  /** The stream cut after the frames and again after the first n bytes of the bad tail. */
  function CutAt(frames: seq<bytes>, tail: bytes, n: nat): seq<bytes>
    requires n <= |tail|
  {
    Chop(Flatten(frames)) + [tail[..n]] + Chop(tail[n..])
  }

  lemma CutAtIsChunked(frames: seq<bytes>, tail: bytes, n: nat)
    requires 0 < n <= |tail| && n <= MAX_CHUNK
    ensures Chunked(CutAt(frames, tail, n)) && Flatten(CutAt(frames, tail, n)) == Flatten(frames) + tail
  {
    var head, cut, rest := Chop(Flatten(frames)), tail[..n], Chop(tail[n..]);
    hide Chop, Flatten;
    ChopIsChunked(Flatten(frames));
    ChopIsChunked(tail[n..]);
    FlattenAppend(head + [cut], rest);
    FlattenSingle(head, cut);
    SumOfThree(Flatten(frames), cut, tail[n..]);
    assert tail == cut + tail[n..];
  }

  lemma FramesInChunks(frames: seq<bytes>, tail: bytes)
    requires AllValid(frames) && LengthsUpTo(Flatten(frames) + tail, MAX_SAFE_LENGTH)
    ensures var p := FeedAll(Chop(Flatten(frames)));
      !p.fault && p.residue == [] && |p.segments| == |frames|
  {
    hide Greedy, FeedAll, Chop;
    GreedyIsUnique(frames, []);
    assert Flatten(frames) + [] == Flatten(frames);
    ChopIsChunked(Flatten(frames));
    PrefixUpTo(Flatten(frames), tail, MAX_SAFE_LENGTH);
    SafeStream(Chop(Flatten(frames)));
    LeadingOfFrames(Greedy(Flatten(frames)).segments);
  }

  lemma FeedDiscard(head: seq<bytes>, cut: bytes)
    requires var p := FeedAll(head); !p.fault && p.residue == []
    requires |cut| > HEADER && DecodeI32(cut) <= 0
    ensures FeedAll(head + [cut]).segments == FeedAll(head).segments + [Discard(cut)]
  {
    FeedMore(head, cut);
    assert [] + cut == cut;
    hide DecodeI32;
    DiscardOnly(cut);
  }

  lemma DiscardOnly(s: bytes)
    requires |s| > HEADER && DecodeI32(s) <= 0
    ensures Drain(s) == Parse([Discard(s)], [], false)
  {
  }

  lemma DiscardsExactly(frames: seq<bytes>, tail: bytes, n: nat)
    requires AllValid(frames) && HEADER < n <= |tail| && n <= MAX_CHUNK && DecodeI32(tail) <= 0
    requires LengthsUpTo(Flatten(frames) + tail, MAX_SAFE_LENGTH)
    ensures var p := FeedAll(CutAt(frames, tail, n));
      |p.segments| > |frames| && p.segments[|frames|] == Discard(tail[..n])
  {
    var head, cut, rest := Chop(Flatten(frames)), tail[..n], Chop(tail[n..]);
    FramesInChunks(frames, tail);
    assert tail == cut + tail[n..];
    DecodeI32Prefix(cut, tail[n..]);
    hide FeedAll, Chop, DecodeI32;
    FeedDiscard(head, cut);
    FeedAllExtends(head + [cut], rest);
  }

  /** Cutting the tail after its fifth or after its sixth byte discards five bytes or six. */
  lemma CutsDiffer(frames: seq<bytes>, tail: bytes)
    requires AllValid(frames) && |tail| > HEADER + 1 && DecodeI32(tail) <= 0
    requires LengthsUpTo(Flatten(frames) + tail, MAX_SAFE_LENGTH)
    ensures var a, b := CutAt(frames, tail, HEADER + 1), CutAt(frames, tail, HEADER + 2);
      && Chunked(a) && Chunked(b) && Flatten(a) == Flatten(b) == Flatten(frames) + tail && FeedAll(a) != FeedAll(b)
  {
    hide FeedAll, CutAt, DecodeI32, LengthsUpTo;
    CutAtIsChunked(frames, tail, HEADER + 1);
    CutAtIsChunked(frames, tail, HEADER + 2);
    DiscardsExactly(frames, tail, HEADER + 1);
    DiscardsExactly(frames, tail, HEADER + 2);
    assert |tail[..HEADER + 1]| != |tail[..HEADER + 2]|;
  }

  lemma CleanHasNoBadTail(s: bytes)
    requires Clean(Greedy(s))
    ensures !HasBadTail(s)
  {
    if HasBadTail(s) {
      var frames: seq<bytes>, tail: bytes :| BadTail(s, frames, tail);
      GreedyIsUnique(frames, []);
      assert Flatten(frames) + [] == Flatten(frames);
      GreedyResumes(Flatten(frames), tail);
      assert [] + tail == tail;
      AllFramesAppend(Greedy(Flatten(frames)).segments, Greedy(tail).segments);
    }
  }

  // ---- Two frames, received with and without a stall --------------------------------------------

  /** Two frames, the last chunk completing both. */
  function StuckChunks(a: bytes, b: bytes): seq<bytes>
    requires a != []
  {
    Chop(a[..|a| - 1]) + [a[|a| - 1..] + b]
  }

  lemma StuckIsChunked(a: bytes, b: bytes)
    requires a != [] && |b| < MAX_CHUNK
    ensures Chunked(StuckChunks(a, b)) && Flatten(StuckChunks(a, b)) == a + b
  {
    hide Chop, Flatten;
    var n := |a| - 1;
    ChopIsChunked(a[..n]);
    FlattenSingle(Chop(a[..n]), a[n..] + b);
    SumOfThree(a[..n], a[n..], b);
    assert a == a[..n] + a[n..];
  }

  lemma IncompleteStays(s: bytes)
    requires Incomplete(s)
    ensures Greedy(s) == Parse([], s, false)
  {
  }

  lemma PartOfFrame(a: bytes, s: bytes)
    requires IsFrame(a) && s <= a && |s| < |a|
    ensures Incomplete(s) && LengthUpTo(s, |a| - HEADER)
  {
    if |s| > HEADER {
      assert a == s + a[|s|..];
      DecodeI32Prefix(s, a[|s|..]);
    }
  }

  /** While the whole stream is part of one frame it is all kept. */
  lemma {:induction false} FeedPart(chunks: seq<bytes>, a: bytes)
    requires IsFrame(a) && |a| - 1 <= INT_MAX && Flatten(chunks) <= a && |Flatten(chunks)| < |a|
    ensures FeedAll(chunks) == Parse([], Flatten(chunks), false)
  {
    if chunks != [] {
      var init, last := SplitLast(chunks);
      hide Drain, IsFrame;
      FeedPart(init, a);
      PartOfFrame(a, Flatten(chunks));
      DrainIsGreedy(Flatten(chunks));
      IncompleteStays(Flatten(chunks));
    }
  }

  /** The first frame never leaves the buffer, because the chunk that completes it takes the size past INT_MAX. */
  lemma Stuck(a: bytes, b: bytes)
    requires IsFrame(a) && INT_MAX - MAX_CHUNK < |a| - 1 <= INT_MAX && |b| == MAX_CHUNK - 1
    ensures FeedAll(StuckChunks(a, b)) == Parse([], a + b, false)
  {
    hide Drain, Chop, FeedAll;
    var n := |a| - 1;
    var head, last := Chop(a[..n]), a[n..] + b;
    ChopIsChunked(a[..n]);
    FeedPart(head, a);
    FeedMore(head, last);
    assert a == a[..n] + a[n..];
    SumOfThree(a[..n], a[n..], b);
    DecodeI32Prefix(a, b);
    hide DecodeI32;
    DrainStalls(a + b);
  }

  /** Received one after the other, both are cut. */
  lemma NotStuck(a: bytes, b: bytes)
    requires IsFrame(a) && IsFrame(b) && |a| <= INT_MAX && |b| <= MAX_CHUNK
    ensures var y := Chop(a) + [b];
      Chunked(y) && Flatten(y) == a + b && FeedAll(y) == Greedy(a + b)
  {
    hide Drain, Chop, DecodeI32, FeedAll;
    ChopIsChunked(a);
    FlattenSingle(Chop(a), b);
    FeedMore(Chop(a), b);
    WholeFrame(Chop(a), a);
    DrainIsGreedy(b);
    GreedyStep(a, b);
    assert [] + b == b;
  }

  lemma WholeFrame(chunks: seq<bytes>, a: bytes)
    requires IsFrame(a) && |a| <= INT_MAX && Chunked(chunks) && Flatten(chunks) == a
    ensures FeedAll(chunks) == Parse([Frame(a)], [], false)
  {
    var init, last := SplitLast(chunks);
    hide IsFrame, FeedAll, Drain;
    FeedPart(init, a);
    DrainIsGreedy(a);
    SingleFrame(a);
  }

  lemma SingleFrame(a: bytes)
    requires IsFrame(a)
    ensures Greedy(a) == Parse([Frame(a)], [], false)
  {
    GreedyStep(a, []);
    assert a + [] == a;
  }

  /** For every limit above MAX_SAFE_LENGTH, a clean stream of two frames within it whose result depends on the chunks. */
  lemma StuckPair(limit: int) returns (s: bytes, stuck: seq<bytes>, free: seq<bytes>)
    requires MAX_SAFE_LENGTH < limit <= MAX_LENGTH
    ensures Clean(Greedy(s)) && LengthsUpTo(s, limit) && Greedy(s).segments != []
    ensures Chunked(stuck) && Flatten(stuck) == s && FeedAll(stuck) == Parse([], s, false) && AllPending(stuck, limit)
    ensures Chunked(free) && Flatten(free) == s && FeedAll(free) == Greedy(s)
    ensures |s| == limit + HEADER + MAX_CHUNK - 1
  {
    hide FeedAll, Greedy, Chop, DecodeI32, EncodeI32, Chunked, Flatten, AllPending;
    var a, b := FrameOf(Zeros(limit)), FrameOf(Zeros(MAX_CHUNK - 1 - HEADER));
    FrameOfPayload(Zeros(limit));
    FrameOfPayload(Zeros(MAX_CHUNK - 1 - HEADER));
    s, stuck, free := a + b, StuckChunks(a, b), Chop(a) + [b];
    StuckIsChunked(a, b);
    Stuck(a, b);
    NotStuck(a, b);
    TwoFrames(a, b, limit);
    StuckPending(a, b);
  }

  lemma TwoFrames(a: bytes, b: bytes, limit: int)
    requires IsFrame(a) && IsFrame(b) && |a| <= limit + HEADER && |b| <= limit + HEADER
    ensures Clean(Greedy(a + b)) && LengthsUpTo(a + b, limit) && Greedy(a + b).segments != []
  {
    hide IsFrame;
    assert Flatten([a, b]) == a + b by {
      assert [a, b][1..] == [b] && Flatten([b]) == b;
    }
    assert a + b + [] == a + b;
    GreedyIsUnique([a, b], []);
    FramesUpTo([a, b], a + b, limit);
    assert LeadingFrames(Greedy(a + b).segments) != [];
  }

  /** In every state before and after each chunk the pending length is at most limit. */
  ghost predicate AllPending(chunks: seq<bytes>, limit: int) {
    forall i | 0 <= i <= |chunks| :: LengthUpTo(FeedAll(chunks[..i]).residue, limit)
  }

  lemma StuckPending(a: bytes, b: bytes)
    requires IsFrame(a) && INT_MAX - MAX_CHUNK < |a| - 1 <= INT_MAX && |b| == MAX_CHUNK - 1
    ensures AllPending(StuckChunks(a, b), |a| - HEADER)
  {
    hide FeedAll, Chop, DecodeI32;
    var n, chunks := |a| - 1, StuckChunks(a, b);
    var head := Chop(a[..n]);
    ChopIsChunked(a[..n]);
    Stuck(a, b);
    forall i | 0 <= i <= |chunks| ensures LengthUpTo(FeedAll(chunks[..i]).residue, |a| - HEADER) {
      if i < |chunks| {
        assert chunks[..i] == head[..i];
        FlattenPrefix(head[..i], head);
        FeedPart(head[..i], a);
        PartOfFrame(a, Flatten(head[..i]));
      } else {
        assert chunks[..i] == chunks;
        DecodeI32Prefix(a, b);
      }
    }
  }

  // ---- Chunk independence ----------------------------------------------------------------------

  lemma UpTo(s: bytes, low: int, high: int)
    requires LengthsUpTo(s, low) && low <= high
    ensures LengthsUpTo(s, high)
  {
    hide Greedy;
  }

  /** The calls as coded give the ideal parse of every clean stream of lengths up to a limit, in whatever chunks recv
      returns it, exactly for limits up to MAX_SAFE_LENGTH. */
  lemma CleanStreamsAreChunkIndependent(limit: int)
    requires 0 < limit <= 2_147_483_643
    ensures (forall chunks: seq<bytes> | Chunked(chunks) && LengthsUpTo(Flatten(chunks), limit) && Clean(Greedy(Flatten(chunks))) ::
               FeedAll(chunks) == Greedy(Flatten(chunks)))
            <==> limit <= 2_147_479_548
  {
    hide FeedAll, Greedy, AllFrames, LengthsUpTo, Chunked;
    if limit <= MAX_SAFE_LENGTH {
      forall chunks: seq<bytes> | Chunked(chunks) && LengthsUpTo(Flatten(chunks), limit) && Clean(Greedy(Flatten(chunks)))
        ensures FeedAll(chunks) == Greedy(Flatten(chunks))
      {
        UpTo(Flatten(chunks), limit, MAX_SAFE_LENGTH);
        SafeStream(chunks);
      }
    } else {
      var s, stuck, free := StuckPair(limit);
    }
  }

  /** The frames delivered before anything is discarded are all of the stream's, and whether anything is discarded is
      decided by the stream, for every stream of lengths up to a limit and all chunks, exactly for limits up to
      MAX_SAFE_LENGTH. */
  lemma LeadingFramesAreChunkIndependent(limit: int)
    requires 0 < limit <= 2_147_483_643
    ensures (forall chunks: seq<bytes> | Chunked(chunks) && LengthsUpTo(Flatten(chunks), limit) ::
               && LeadingFrames(FeedAll(chunks).segments) == LeadingFrames(Greedy(Flatten(chunks)).segments)
               && (Clean(FeedAll(chunks)) <==> Clean(Greedy(Flatten(chunks)))))
            <==> limit <= 2_147_479_548
  {
    hide FeedAll, Greedy, LengthsUpTo, Chunked;
    if limit <= MAX_SAFE_LENGTH {
      forall chunks: seq<bytes> | Chunked(chunks) && LengthsUpTo(Flatten(chunks), limit)
        ensures LeadingFrames(FeedAll(chunks).segments) == LeadingFrames(Greedy(Flatten(chunks)).segments)
        ensures Clean(FeedAll(chunks)) <==> Clean(Greedy(Flatten(chunks)))
      {
        UpTo(Flatten(chunks), limit, MAX_SAFE_LENGTH);
        SafeStream(chunks);
      }
    } else {
      var s, stuck, free := StuckPair(limit);
      assert LeadingFrames(FeedAll(stuck).segments) == [] != LeadingFrames(Greedy(s).segments);
    }
  }

  /** All the ways in which recv may cut s into chunks have the same outcome. */
  ghost predicate ChunkingIsInvisible(s: bytes) {
    forall a: seq<bytes>, b: seq<bytes> | Chunked(a) && Chunked(b) && Flatten(a) == s && Flatten(b) == s ::
      FeedAll(a) == FeedAll(b)
  }

  lemma InvisibleUnlessBad(s: bytes)
    requires LengthsUpTo(s, MAX_SAFE_LENGTH)
    ensures ChunkingIsInvisible(s) <==> !HasBadTail(s)
  {
    hide FeedAll, Greedy, AllFrames, LengthsUpTo, Chunked;
    if HasBadTail(s) {
      var frames: seq<bytes>, tail: bytes :| BadTail(s, frames, tail);
      CutsDiffer(frames, tail);
    } else {
      forall a: seq<bytes> | Chunked(a) && Flatten(a) == s ensures FeedAll(a) == Greedy(s) {
        SafeStream(a);
      }
    }
  }

  /** A bad length discards whatever happens to be buffered behind it, so the chunking shows when something can be; and
      it shows when a long frame can stall. For streams of lengths up to a limit, the chunking is invisible exactly if
      the stream is not made of valid frames followed by a non-positive length and at least two bytes more; and this
      is so exactly for limits up to MAX_SAFE_LENGTH. */
  lemma ChunkIndependence(limit: int)
    requires 0 < limit <= 2_147_483_643
    ensures (forall s: bytes | LengthsUpTo(s, limit) :: ChunkingIsInvisible(s) <==> !HasBadTail(s))
            <==> limit <= 2_147_479_548
  {
    hide FeedAll, Greedy, AllFrames, LengthsUpTo, Chunked, HasBadTail;
    if limit <= MAX_SAFE_LENGTH {
      forall s: bytes | LengthsUpTo(s, limit) ensures ChunkingIsInvisible(s) <==> !HasBadTail(s) {
        UpTo(s, limit, MAX_SAFE_LENGTH);
        InvisibleUnlessBad(s);
      }
    } else {
      var s, stuck, free := StuckPair(limit);
      CleanHasNoBadTail(s);
      assert !ChunkingIsInvisible(s);
    }
  }

  // ---- The size of the buffer ------------------------------------------------------------------

  /** Between calls the buffer holds at most limit + 3 bytes, during a call at most limit + 3 + 4096. */
  predicate Fits(residue: bytes, chunk: bytes, limit: int) {
    |residue| < limit + HEADER && |residue + chunk| < limit + HEADER + MAX_CHUNK
  }

  lemma {:induction false} SafeResidue(chunks: seq<bytes>, limit: int)
    requires Chunked(chunks) && AllPending(chunks, limit) && limit <= MAX_SAFE_LENGTH
    ensures Pending(FeedAll(chunks).residue, limit)
  {
    hide Drain, Greedy, DecodeI32;
    assert chunks[..|chunks|] == chunks;
    if chunks != [] {
      var init, last := SplitLast(chunks);
      assert forall i | 0 <= i <= |init| :: chunks[..i] == init[..i];
      SafeResidue(init, limit);
      var p := FeedAll(init);
      DrainIsGreedy(p.residue + last);
      GreedyAccounts(p.residue + last);
    }
  }

  /** For pending lengths up to a limit the buffer stays within these bounds, whatever the chunks, exactly if the
      limit is at most MAX_SAFE_LENGTH. */
  lemma BufferBound(limit: int)
    requires 0 < limit <= 2_147_483_643
    ensures (forall chunks: seq<bytes>, chunk: bytes | Chunked(chunks) && AllPending(chunks, limit) && |chunk| <= MAX_CHUNK ::
               Fits(FeedAll(chunks).residue, chunk, limit))
            <==> limit <= 2_147_479_548
  {
    hide FeedAll, Chunked, AllPending;
    if limit <= MAX_SAFE_LENGTH {
      forall chunks: seq<bytes>, chunk: bytes | Chunked(chunks) && AllPending(chunks, limit) && |chunk| <= MAX_CHUNK
        ensures Fits(FeedAll(chunks).residue, chunk, limit)
      {
        SafeResidue(chunks, limit);
      }
    } else {
      var s, stuck, free := StuckPair(limit);
      assert !Fits(FeedAll(stuck).residue, [], limit);
    }
  }

  // ---- Parts of a stream of safe frames ----------------------------------------------------------

  predicate SafeFrames(frames: seq<bytes>) {
    forall i | 0 <= i < |frames| :: IsFrame(frames[i]) && |frames[i]| <= MAX_SAFE_LENGTH + HEADER
  }

  /** Any part of a stream of safe frames, in any chunks, is parsed into a prefix of the frames, and the whole stream
      into all of them. */
  lemma FeedAllOfPrefix(chunks: seq<bytes>, frames: seq<bytes>)
    requires SafeFrames(frames) && Chunked(chunks) && Flatten(chunks) <= Flatten(frames)
    ensures FeedAll(chunks) == Greedy(Flatten(chunks)) && Clean(FeedAll(chunks))
    ensures Frames(FeedAll(chunks).segments) <= frames
    ensures Flatten(chunks) == Flatten(frames) ==>
      Frames(FeedAll(chunks).segments) == frames && FeedAll(chunks).residue == []
  {
    hide IsFrame, Greedy, FeedAll;
    GreedyOfPrefix(frames, Flatten(chunks));
    FramesUpTo(frames, Flatten(chunks), MAX_SAFE_LENGTH);
    SafeStream(chunks);
  }

  /** Receiving more of a stream of frames of safe length is always defined. */
  lemma ReceiveOfPrefix(chunks: seq<bytes>, chunk: bytes, frames: seq<bytes>)
    requires SafeFrames(frames) && Chunked(chunks) && 0 < |chunk| <= MAX_CHUNK
    requires Flatten(chunks) + chunk <= Flatten(frames)
    ensures !FeedAll(chunks).fault && !Drain(FeedAll(chunks).residue + chunk).fault
  {
    hide Greedy, Feed, FeedAll, Drain, Flatten, AllFrames, Frames, SafeFrames, Chunked;
    FeedMore(chunks, chunk);
    FlattenSingle(chunks, chunk);
    ChunkedMore(chunks, chunk);
    PrefixOfPrefix(Flatten(chunks), chunk, Flatten(frames));
    FeedAllOfPrefix(chunks, frames);
    FeedAllOfPrefix(chunks + [chunk], frames);
    FeedFault(FeedAll(chunks), chunk);
  }

  lemma ChunkedMore(chunks: seq<bytes>, chunk: bytes)
    requires Chunked(chunks) && 0 < |chunk| <= MAX_CHUNK
    ensures Chunked(chunks + [chunk])
  {
  }

  lemma FeedFault(p: Parse, chunk: bytes)
    requires !p.fault
    ensures Feed(p, chunk).fault == Drain(p.residue + chunk).fault
  {
  }

  lemma PrefixOfPrefix(a: bytes, b: bytes, c: bytes)
    requires a + b <= c
    ensures a <= c
  {
    assert c[..|a|] == (a + b)[..|a|] == a;
  }

  lemma {:induction false} FramesInImages(segments: seq<Segment>)
    ensures |Flatten(Frames(segments))| <= |Images(segments)|
  {
    if segments != [] {
      FramesInImages(segments[1..]);
      if segments[0].Frame? {
        assert Frames(segments)[1..] == Frames(segments[1..]);
      } else {
        assert Frames(segments) == Frames(segments[1..]);
      }
    }
  }

  /** The frames cut are no longer than what was received. */
  lemma FramesFit(chunks: seq<bytes>)
    ensures |Flatten(Frames(FeedAll(chunks).segments))| <= |Flatten(chunks)|
  {
    FeedAllAccounts(chunks);
    FramesInImages(FeedAll(chunks).segments);
  }
}
