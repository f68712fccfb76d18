/** The length-prefixed framing of CCommonServer::__AddContent: a 32-bit signed length, then that many bytes.
    `Drain` is the loop as the code runs it, with the buffer size truncated to int; `Greedy` is the parse of a whole
    stream over unbounded integers, which it is measured against. */
module Framing {
  import opened Wire

  const HEADER: nat := 4

  /** The largest length for which the signed addition nPktLen + 4 is defined. */
  const MAX_LENGTH: int := INT_MAX - 4

  /** The size of the stack buffer handed to recv. */
  const MAX_CHUNK: nat := 4096

  /** What the loop does with a stretch of input: hand it on as one frame, or throw it away. */
  datatype Segment = Frame(image: bytes) | Discard(image: bytes)

  /** `fault` records that nPktLen + 4 overflowed, after which the program has no defined behaviour. */
  datatype Parse = Parse(segments: seq<Segment>, residue: bytes, fault: bool)

  predicate IsFrame(b: bytes) {
    |b| > HEADER && 0 < DecodeI32(b) <= MAX_LENGTH && |b| == DecodeI32(b) + HEADER
  }

  predicate IsDiscard(b: bytes) {
    |b| > HEADER && DecodeI32(b) <= 0
  }

  predicate ValidSegment(g: Segment) {
    if g.Frame? then IsFrame(g.image) else IsDiscard(g.image)
  }

  predicate ValidSegments(segments: seq<Segment>) {
    segments == [] || (ValidSegment(segments[0]) && ValidSegments(segments[1..]))
  }

  /** A buffer the loop leaves alone: no complete header, or a positive length whose frame is not all there. */
  predicate Incomplete(b: bytes) {
    |b| <= HEADER || (0 < DecodeI32(b) <= MAX_LENGTH && |b| < DecodeI32(b) + HEADER)
  }

  function Prepend(g: Segment, p: Parse): Parse {
    p.(segments := [g] + p.segments)
  }

  function Greedy(s: bytes): Parse {
    if |s| <= HEADER then Parse([], s, false)
    else
      var n := DecodeI32(s);
      if n <= 0 then Parse([Discard(s)], [], false)
      else if n > MAX_LENGTH then Parse([], [], true)
      else if |s| >= n + HEADER then Prepend(Frame(s[..n + HEADER]), Greedy(s[n + HEADER..]))
      else Parse([], s, false)
  }

  /** The loop of __AddContent: as Greedy, but the size is compared as (int)strData.size(). */
  function Drain(s: bytes): Parse {
    if |s| <= HEADER then Parse([], s, false)
    else
      var n := DecodeI32(s);
      if n <= 0 then Parse([Discard(s)], [], false)
      else if n > MAX_LENGTH then Parse([], [], true)
      else if ToInt32(|s|) >= n + HEADER then Prepend(Frame(s[..n + HEADER]), Drain(s[n + HEADER..]))
      else Parse([], s, false)
  }

  function Images(segments: seq<Segment>): bytes {
    if segments == [] then [] else segments[0].image + Images(segments[1..])
  }

  /** The frames handed on, in order. */
  function Frames(segments: seq<Segment>): seq<bytes> {
    if segments == [] then []
    else (if segments[0].Frame? then [segments[0].image] else []) + Frames(segments[1..])
  }

  /** The frames handed on before anything was discarded. */
  function LeadingFrames(segments: seq<Segment>): seq<bytes> {
    if segments == [] || segments[0].Discard? then []
    else [segments[0].image] + LeadingFrames(segments[1..])
  }

  predicate AllFrames(segments: seq<Segment>) {
    segments == [] || (segments[0].Frame? && AllFrames(segments[1..]))
  }

  /** The parse met neither a non-positive nor an overflowing length. */
  predicate Clean(p: Parse) {
    !p.fault && AllFrames(p.segments)
  }

  /** The ideal parse gone on with after p. */
  function Continue(p: Parse, t: bytes): Parse {
    if p.fault then p
    else
      var q := Greedy(p.residue + t);
      Parse(p.segments + q.segments, q.residue, q.fault)
  }

  // ---- Appending -------------------------------------------------------------------------------

  lemma {:induction false} ImagesAppend(a: seq<Segment>, b: seq<Segment>)
    ensures Images(a + b) == Images(a) + Images(b)
  {
    if a == [] {
      assert a + b == b;
    } else {
      assert (a + b)[1..] == a[1..] + b;
      ImagesAppend(a[1..], b);
    }
  }

  lemma {:induction false} FramesAppend(a: seq<Segment>, b: seq<Segment>)
    ensures Frames(a + b) == Frames(a) + Frames(b)
  {
    if a == [] {
      assert a + b == b;
    } else {
      assert (a + b)[1..] == a[1..] + b;
      FramesAppend(a[1..], b);
    }
  }

  lemma {:induction false} AllFramesAppend(a: seq<Segment>, b: seq<Segment>)
    ensures AllFrames(a + b) <==> AllFrames(a) && AllFrames(b)
  {
    if a == [] {
      assert a + b == b;
    } else {
      assert (a + b)[1..] == a[1..] + b;
      AllFramesAppend(a[1..], b);
    }
  }

  lemma {:induction false} LeadingFramesAppend(a: seq<Segment>, b: seq<Segment>)
    ensures LeadingFrames(a + b) == if AllFrames(a) then LeadingFrames(a) + LeadingFrames(b) else LeadingFrames(a)
  {
    if a == [] {
      assert a + b == b;
    } else {
      assert (a + b)[1..] == a[1..] + b && (a + b)[0] == a[0];
      LeadingFramesAppend(a[1..], b);
      SumOfThree([a[0].image], LeadingFrames(a[1..]), LeadingFrames(b));
    }
  }

  lemma PrependFacts(g: Segment, p: Parse)
    ensures var q := Prepend(g, p).segments;
      && Images(q) == g.image + Images(p.segments)
      && Frames(q) == (if g.Frame? then [g.image] else []) + Frames(p.segments)
      && LeadingFrames(q) == (if g.Frame? then [g.image] + LeadingFrames(p.segments) else [])
      && (AllFrames(q) <==> g.Frame? && AllFrames(p.segments))
      && (ValidSegments(q) <==> ValidSegment(g) && ValidSegments(p.segments))
  {
    assert ([g] + p.segments)[1..] == p.segments;
  }

  /** One turn of the loop that cuts a frame. */
  lemma GreedyStep(frame: bytes, rest: bytes)
    requires IsFrame(frame)
    ensures Greedy(frame + rest) == Prepend(Frame(frame), Greedy(rest))
  {
    DecodeI32Prefix(frame, rest);
    assert (frame + rest)[..|frame|] == frame;
    assert (frame + rest)[|frame|..] == rest;
  }

  /** The frame at the head of s, if the loop would cut one. */
  ghost predicate HasFrame(s: bytes) {
    |s| > HEADER && 0 < DecodeI32(s) <= MAX_LENGTH && |s| >= DecodeI32(s) + HEADER
  }

  lemma SplitHead(s: bytes) returns (frame: bytes, rest: bytes)
    requires HasFrame(s)
    ensures s == frame + rest && IsFrame(frame) && |rest| < |s|
    ensures Greedy(s) == Prepend(Frame(frame), Greedy(rest))
  {
    var n := DecodeI32(s) + HEADER;
    frame, rest := s[..n], s[n..];
    assert s == frame + rest;
    DecodeI32Prefix(frame, rest);
    GreedyStep(frame, rest);
  }

  // ---- Accounting ------------------------------------------------------------------------------

  /** p accounts for the bytes s: valid segments in order, then the residue; or, after a fault, an overflowing length. */
  predicate Accounts(p: Parse, s: bytes) {
    && ValidSegments(p.segments)
    && (if p.fault then Images(p.segments) <= s && Overflows(s[|Images(p.segments)|..])
        else Images(p.segments) + p.residue == s)
  }

  predicate Overflows(s: bytes) {
    |s| > HEADER && DecodeI32(s) > MAX_LENGTH
  }

  lemma PrefixOfSum(a: bytes, b: bytes, c: bytes)
    requires b <= c
    ensures a + b <= a + c && (a + c)[|a + b|..] == c[|b|..]
  {
    assert c == b + c[|b|..];
    assert a + c == a + b + c[|b|..];
  }

  lemma AccountPrepend(g: Segment, p: Parse, s: bytes)
    requires ValidSegment(g) && Accounts(p, s)
    ensures Accounts(Prepend(g, p), g.image + s)
  {
    PrependFacts(g, p);
    hide ValidSegment, ValidSegments, Images, Overflows;
    if p.fault {
      PrefixOfSum(g.image, Images(p.segments), s);
    } else {
      SumOfThree(g.image, Images(p.segments), p.residue);
    }
  }

  lemma AccountAppend(p: Parse, q: Parse, s: bytes, t: bytes)
    requires !p.fault && Accounts(p, s) && Accounts(q, p.residue + t)
    ensures Accounts(Parse(p.segments + q.segments, q.residue, q.fault), s + t)
  {
    hide Overflows, ValidSegments, Images;
    ImagesAppend(p.segments, q.segments);
    ValidAppend(p.segments, q.segments);
    var a, b, u := Images(p.segments), Images(q.segments), p.residue + t;
    SumOfThree(a, p.residue, t);
    if q.fault {
      PrefixOfSum(a, b, u);
    } else {
      SumOfThree(a, b, q.residue);
    }
  }

  lemma FaultStays(p: Parse, s: bytes, t: bytes)
    requires p.fault && Accounts(p, s)
    ensures Accounts(p, s + t)
  {
    hide ValidSegments, Images;
    var rest := s[|Images(p.segments)|..];
    assert (s + t)[|Images(p.segments)|..] == rest + t;
    DecodeI32Prefix(rest, t);
  }

  lemma {:induction false} ValidAppend(a: seq<Segment>, b: seq<Segment>)
    ensures ValidSegments(a + b) <==> ValidSegments(a) && ValidSegments(b)
  {
    if a == [] {
      assert a + b == b;
    } else {
      assert (a + b)[1..] == a[1..] + b;
      ValidAppend(a[1..], b);
    }
  }

  // ---- The parse of a whole stream -------------------------------------------------------------

  lemma WholeDiscard(s: bytes)
    requires IsDiscard(s)
    ensures Accounts(Parse([Discard(s)], [], false), s)
  {
    assert Images([Discard(s)]) == s;
  }

  /** Every byte is accounted for, in order, and what is left over cannot be cut further. */
  lemma {:induction false} GreedyAccounts(s: bytes)
    ensures Accounts(Greedy(s), s) && Incomplete(Greedy(s).residue)
  {
    if HasFrame(s) {
      var frame, rest := SplitHead(s);
      GreedyAccounts(rest);
      AccountPrepend(Frame(frame), Greedy(rest), rest);
    } else if IsDiscard(s) {
      WholeDiscard(s);
    }
  }

  /** ... and it is the only such decomposition into frames: the parse inverts concatenation. */
  lemma {:induction false} GreedyIsUnique(frames: seq<bytes>, residue: bytes)
    requires AllValid(frames) && Incomplete(residue)
    ensures var p := Greedy(Flatten(frames) + residue);
      Clean(p) && LeadingFrames(p.segments) == frames && Frames(p.segments) == frames && p.residue == residue
  {
    hide DecodeI32;
    if frames == [] {
      assert Flatten(frames) + residue == residue;
    } else {
      var f, rest := frames[0], Flatten(frames[1..]) + residue;
      SumOfThree(f, Flatten(frames[1..]), residue);
      GreedyIsUnique(frames[1..], residue);
      GreedyStep(f, rest);
      PrependFacts(Frame(f), Greedy(rest));
      hide Greedy, IsFrame, Incomplete;
    }
  }

  ghost predicate AllValid(frames: seq<bytes>) {
    forall i | 0 <= i < |frames| :: IsFrame(frames[i])
  }

  lemma ContinuePrepend(g: Segment, p: Parse, t: bytes)
    ensures Continue(Prepend(g, p), t) == Prepend(g, Continue(p, t))
  {
    var q := Greedy(p.residue + t);
    assert [g] + p.segments + q.segments == [g] + (p.segments + q.segments);
  }

  lemma ContinueNothing(s: bytes, t: bytes)
    ensures Continue(Parse([], s, false), t) == Greedy(s + t)
  {
    assert [] + Greedy(s + t).segments == Greedy(s + t).segments;
  }

  lemma ResumeStep(frame: bytes, rest: bytes, t: bytes)
    requires IsFrame(frame)
    requires Greedy(rest + t) == Continue(Greedy(rest), t)
    ensures Greedy(frame + rest + t) == Continue(Greedy(frame + rest), t)
  {
    hide *;
    calc {
      Greedy(frame + rest + t);
      { assert frame + rest + t == frame + (rest + t); }
      Greedy(frame + (rest + t));
      { GreedyStep(frame, rest + t); }
      Prepend(Frame(frame), Continue(Greedy(rest), t));
      { ContinuePrepend(Frame(frame), Greedy(rest), t); }
      Continue(Prepend(Frame(frame), Greedy(rest)), t);
      { GreedyStep(frame, rest); }
      Continue(Greedy(frame + rest), t);
    }
  }

  /** A clean parse can be resumed from its residue. */
  lemma {:induction false} GreedyResumes(s: bytes, t: bytes)
    requires Clean(Greedy(s))
    ensures Greedy(s + t) == Continue(Greedy(s), t)
  {
    if HasFrame(s) {
      var frame, rest := SplitHead(s);
      PrependFacts(Frame(frame), Greedy(rest));
      GreedyResumes(rest, t);
      ResumeStep(frame, rest, t);
    } else {
      assert Greedy(s) == Parse([], s, false);
      ContinueNothing(s, t);
    }
  }

  /** How a parse that met a bad length changes when t more bytes follow: only the discarded tail grows. */
  ghost predicate StoppedBy(p: Parse, q: Parse, t: bytes) {
    && LeadingFrames(q.segments) == LeadingFrames(p.segments)
    && q.fault == p.fault && q.residue == p.residue == []
    && !Clean(p) && !Clean(q)
    && (p.fault ==> q == p)
    && (!p.fault ==> p.segments != [] && q.segments != [] && Last(p).Discard? && |Last(p).image| > HEADER
                     && Last(q) == Discard(Last(p).image + t))
  }

  lemma StoppedPrepend(g: Segment, p: Parse, q: Parse, t: bytes)
    requires g.Frame? && StoppedBy(p, q, t)
    ensures StoppedBy(Prepend(g, p), Prepend(g, q), t)
  {
    PrependFacts(g, p);
    PrependFacts(g, q);
  }

  lemma StoppedStep(frame: bytes, rest: bytes, t: bytes)
    requires IsFrame(frame) && StoppedBy(Greedy(rest), Greedy(rest + t), t)
    ensures StoppedBy(Greedy(frame + rest), Greedy(frame + rest + t), t)
  {
    hide *;
    GreedyStep(frame, rest);
    GreedyStep(frame, rest + t);
    assert frame + rest + t == frame + (rest + t);
    StoppedPrepend(Frame(frame), Greedy(rest), Greedy(rest + t), t);
  }

  lemma BadHead(s: bytes, t: bytes)
    requires !HasFrame(s) && !Clean(Greedy(s))
    ensures StoppedBy(Greedy(s), Greedy(s + t), t)
  {
    DecodeI32Prefix(s, t);
    assert DecodeI32(s) <= 0 || DecodeI32(s) > MAX_LENGTH;
  }

  /** Once a bad length has been met, more input cannot change what came before it. */
  lemma {:induction false} GreedyStopped(s: bytes, t: bytes)
    requires !Clean(Greedy(s))
    ensures StoppedBy(Greedy(s), Greedy(s + t), t)
  {
    if HasFrame(s) {
      var frame, rest := SplitHead(s);
      PrependFacts(Frame(frame), Greedy(rest));
      GreedyStopped(rest, t);
      StoppedStep(frame, rest, t);
    } else {
      BadHead(s, t);
    }
  }

  ghost function Last(p: Parse): Segment {
    if p.segments == [] then Discard([]) else p.segments[|p.segments| - 1]
  }

  /** What any prefix of a stream of valid frames parses to: a prefix of the frames. */
  lemma {:induction false} GreedyOfPrefix(frames: seq<bytes>, s: bytes)
    requires AllValid(frames) && s <= Flatten(frames)
    ensures Clean(Greedy(s)) && Frames(Greedy(s).segments) <= frames
    ensures s == Flatten(frames) ==> Frames(Greedy(s).segments) == frames && Greedy(s).residue == []
  {
    hide DecodeI32;
    if frames != [] && |s| >= |frames[0]| {
      var f, rest := frames[0], s[|frames[0]|..];
      assert s == f + rest;
      assert Flatten(frames)[|f|..] == Flatten(frames[1..]);
      GreedyOfPrefix(frames[1..], rest);
      GreedyStep(f, rest);
      PrependFacts(Frame(f), Greedy(rest));
    } else if frames != [] && |s| > HEADER {
      var f := frames[0];
      assert f == s + f[|s|..];
      DecodeI32Prefix(s, f[|s|..]);
    }
  }

  /** What the loop could have cut off s is what the ideal parse cuts off it. */
  ghost predicate Leads(segments: seq<Segment>, s: bytes) {
    && Images(segments) <= s && LeadingFrames(segments) <= LeadingFrames(Greedy(s).segments)
    && (Clean(Greedy(s)) ==> AllFrames(segments) && Clean(Greedy(s[|Images(segments)|..])))
  }

  lemma LeadsMore(frame: bytes, segments: seq<Segment>, rest: bytes)
    requires IsFrame(frame) && Leads(segments, rest)
    ensures Leads([Frame(frame)] + segments, frame + rest)
  {
    hide Greedy, IsFrame, Images, AllFrames, LeadingFrames;
    GreedyStep(frame, rest);
    PrependFacts(Frame(frame), Greedy(rest));
    PrependFacts(Frame(frame), Parse(segments, [], false));
    PrefixOfSum(frame, Images(segments), rest);
  }

  lemma LeadsNothing(g: Segment, segments: seq<Segment>, s: bytes)
    requires g.Discard? && ValidSegment(g) && g.image + Images(segments) <= s
    ensures Leads([g] + segments, s)
  {
    PrependFacts(g, Parse(segments, [], false));
    var rest := s[|g.image|..];
    assert s == g.image + rest;
    DecodeI32Prefix(g.image, rest);
    assert !Clean(Greedy(s)) by {
      assert Greedy(s).segments == [Discard(s)];
    }
  }

  lemma NothingLeads(s: bytes)
    ensures Leads([], s)
  {
    assert s[0..] == s;
  }

  lemma SplitPrefix(a: bytes, b: bytes, s: bytes)
    requires a + b <= s
    ensures s == a + s[|a|..] && b <= s[|a|..]
  {
  }

  lemma {:induction false} LeadsGreedy(segments: seq<Segment>, s: bytes)
    requires ValidSegments(segments) && Images(segments) <= s
    ensures Leads(segments, s)
  {
    if segments == [] {
      NothingLeads(s);
    } else {
      var g, more := segments[0], segments[1..];
      hide Greedy, Leads, IsFrame;
      SplitPrefix(g.image, Images(more), s);
      assert segments == [g] + more;
      if g.Frame? {
        LeadsGreedy(more, s[|g.image|..]);
        LeadsMore(g.image, more, s[|g.image|..]);
      } else {
        LeadsNothing(g, more, s);
      }
    }
  }

  // ---- The loop as the code runs it ------------------------------------------------------------

  /** What the loop leaves in the buffer: less than a frame as far as the truncated size tells. */
  predicate Kept(b: bytes) {
    |b| <= HEADER || (0 < DecodeI32(b) <= MAX_LENGTH && ToInt32(|b|) < DecodeI32(b) + HEADER)
  }

  lemma SplitDrain(s: bytes) returns (frame: bytes, rest: bytes)
    requires |s| > HEADER && 0 < DecodeI32(s) <= MAX_LENGTH && ToInt32(|s|) >= DecodeI32(s) + HEADER
    ensures s == frame + rest && IsFrame(frame) && |rest| < |s|
    ensures Drain(s) == Prepend(Frame(frame), Drain(rest))
  {
    assert ToInt32(|s|) <= |s|;
    var n := DecodeI32(s) + HEADER;
    frame, rest := s[..n], s[n..];
    DecodeI32Prefix(frame, rest);
  }

  /** One call, on any buffer, accounts for every byte in order, and keeps what it cannot cut. */
  lemma {:induction false} DrainAccounts(s: bytes)
    ensures Accounts(Drain(s), s) && Kept(Drain(s).residue)
    decreases |s|
  {
    hide ToInt32, DecodeI32;
    if |s| > HEADER && 0 < DecodeI32(s) <= MAX_LENGTH && ToInt32(|s|) >= DecodeI32(s) + HEADER {
      var frame, rest := SplitDrain(s);
      DrainAccounts(rest);
      AccountPrepend(Frame(frame), Drain(rest), rest);
    } else if IsDiscard(s) {
      WholeDiscard(s);
    }
  }

  /** Every frame, when its turn comes, is no longer than the truncated size of the buffer. */
  ghost predicate Seen(frames: seq<bytes>, residue: bytes) {
    forall i | 0 <= i < |frames| :: |frames[i]| <= ToInt32(|Flatten(frames[i..]) + residue|)
  }

  lemma SeenTail(frames: seq<bytes>, residue: bytes)
    requires frames != []
    ensures Seen(frames, residue) <==>
      |frames[0]| <= ToInt32(|Flatten(frames) + residue|) && Seen(frames[1..], residue)
  {
    hide Flatten, ToInt32;
    assert frames[0..] == frames;
    assert forall i | 0 <= i < |frames| - 1 :: frames[1..][i..] == frames[i + 1..];
    if Seen(frames, residue) {
      forall i | 0 <= i < |frames| - 1 ensures |frames[1..][i]| <= ToInt32(|Flatten(frames[1..][i..]) + residue|) {
        assert |frames[i + 1]| <= ToInt32(|Flatten(frames[i + 1..]) + residue|);
      }
    }
    if |frames[0]| <= ToInt32(|Flatten(frames) + residue|) && Seen(frames[1..], residue) {
      forall i | 0 <= i < |frames| ensures |frames[i]| <= ToInt32(|Flatten(frames[i..]) + residue|) {
        if i > 0 {
          assert |frames[1..][i - 1]| <= ToInt32(|Flatten(frames[1..][i - 1..]) + residue|);
        }
      }
    }
  }

  ghost predicate PartsInto(p: Parse, frames: seq<bytes>, residue: bytes) {
    Clean(p) && Frames(p.segments) == frames && p.residue == residue
  }

  /** One call on valid frames followed by a residue cuts exactly those frames and keeps that residue if and only if
      the truncated size lets it cut each of them and nothing more. */
  lemma {:induction false} DrainIsUnique(frames: seq<bytes>, residue: bytes)
    requires AllValid(frames)
    ensures PartsInto(Drain(Flatten(frames) + residue), frames, residue) <==> Seen(frames, residue) && Kept(residue)
  {
    hide Seen, Kept, ToInt32, DecodeI32, Drain, PartsInto;
    if frames == [] {
      assert Flatten(frames) + residue == residue;
      DrainNothing(residue);
      SeenNone(residue);
    } else {
      var f, more := frames[0], frames[1..];
      var rest := Flatten(more) + residue;
      SumOfThree(f, Flatten(more), residue);
      DrainIsUnique(more, residue);
      SeenTail(frames, residue);
      assert IsFrame(f) && frames == [f] + more;
      hide IsFrame, Flatten;
      if |f| <= ToInt32(|f + rest|) {
        CutFirst(f, rest);
        PartsPrepend(f, Drain(rest), more, residue);
      } else {
        CutNothing(f, rest, frames, residue);
      }
    }
  }

  lemma SeenNone(residue: bytes)
    ensures Seen([], residue)
  {
  }

  lemma DrainNothing(s: bytes)
    ensures PartsInto(Drain(s), [], s) <==> Kept(s)
  {
    hide ToInt32, DecodeI32;
    if |s| > HEADER && 0 < DecodeI32(s) <= MAX_LENGTH && ToInt32(|s|) >= DecodeI32(s) + HEADER {
      var frame, rest := SplitDrain(s);
      PrependFacts(Frame(frame), Drain(rest));
    }
  }

  lemma CutFirst(f: bytes, rest: bytes)
    requires IsFrame(f) && |f| <= ToInt32(|f + rest|)
    ensures Drain(f + rest) == Prepend(Frame(f), Drain(rest))
  {
    DecodeI32Prefix(f, rest);
    assert (f + rest)[..|f|] == f && (f + rest)[|f|..] == rest;
  }

  lemma CutNothing(f: bytes, rest: bytes, frames: seq<bytes>, residue: bytes)
    requires IsFrame(f) && |f| > ToInt32(|f + rest|) && frames != []
    ensures !PartsInto(Drain(f + rest), frames, residue)
  {
    DecodeI32Prefix(f, rest);
  }

  lemma PartsPrepend(f: bytes, p: Parse, frames: seq<bytes>, residue: bytes)
    ensures PartsInto(Prepend(Frame(f), p), [f] + frames, residue) <==> PartsInto(p, frames, residue)
  {
    PrependFacts(Frame(f), p);
    var q := [f] + Frames(p.segments);
    assert q[1..] == Frames(p.segments) && ([f] + frames)[1..] == frames;
  }

  /** While the buffer fits an int, the truncated comparison is the intended one. */
  lemma {:induction false} DrainIsGreedy(s: bytes)
    requires |s| <= INT_MAX
    ensures Drain(s) == Greedy(s)
  {
    hide DecodeI32;
    assert ToInt32(|s|) == |s|;
    hide ToInt32;
    if HasFrame(s) {
      var rest := s[DecodeI32(s) + HEADER..];
      DrainIsGreedy(rest);
    }
  }

  /** One call faults at once exactly if it reads a length for which the signed addition nPktLen + 4 overflows, and
      discards everything exactly if it reads a length that is not positive. */
  lemma FirstLength(s: bytes)
    requires |s| > 4
    ensures Drain(s) == Parse([], [], true) <==> DecodeI32(s) + 4 > 0x7fff_ffff
    ensures Drain(s) == Parse([Discard(s)], [], false) <==> DecodeI32(s) <= 0
  {
    hide DecodeI32, ToInt32;
    if 0 < DecodeI32(s) <= MAX_LENGTH && ToInt32(|s|) >= DecodeI32(s) + HEADER {
      var frame, rest := SplitDrain(s);
      hide Drain;
      PrependFacts(Frame(frame), Drain(rest));
    }
  }

  lemma TruncatedSize(x: nat, n: int)
    requires 0 < n <= INT_MAX
    ensures ToInt32(x) < n <==> x % 0x1_0000_0000 < n || x % 0x1_0000_0000 > INT_MAX
  {
  }

  /** A buffer headed by a positive length is left alone by one call, complete frame or not, exactly while its size
      truncated to 32 bits is below the frame's or is negative as an int. */
  lemma DrainStalls(s: bytes)
    requires |s| > HEADER && 0 < DecodeI32(s) <= MAX_LENGTH
    ensures var u, size := |s| % 0x1_0000_0000, DecodeI32(s) + HEADER;
      && (Drain(s) == Parse([], s, false) <==> u < size || u > INT_MAX)
      && (Greedy(s) == Parse([], s, false) <==> |s| < size)
  {
    var n := DecodeI32(s) + HEADER;
    TruncatedSize(|s|, n);
    hide DecodeI32, ToInt32;
    if ToInt32(|s|) >= n {
      var frame, rest := SplitDrain(s);
      hide Drain;
      PrependFacts(Frame(frame), Drain(rest));
    }
    if |s| >= n {
      var frame, rest := SplitHead(s);
      hide Greedy;
      PrependFacts(Frame(frame), Greedy(rest));
    }
  }

  /** The largest length for which one recv can never push the buffer past INT_MAX. */
  const MAX_SAFE_LENGTH: int := INT_MAX - (HEADER - 1) - MAX_CHUNK

  predicate LengthUpTo(residue: bytes, limit: int) {
    |residue| > HEADER ==> DecodeI32(residue) <= limit
  }

  /** A residue between two calls, when the pending length is at most `limit`. */
  predicate Pending(residue: bytes, limit: int) {
    Incomplete(residue) && LengthUpTo(residue, limit)
  }

  lemma SafePending(residue: bytes, chunk: bytes)
    requires Pending(residue, MAX_SAFE_LENGTH) && |chunk| <= MAX_CHUNK
    ensures Drain(residue + chunk) == Greedy(residue + chunk)
  {
    DrainIsGreedy(residue + chunk);
  }

  /** The loop meets its specification on every pending buffer and every chunk exactly for lengths up to
      MAX_SAFE_LENGTH; each of the 4095 larger ones up to MAX_LENGTH can make it stall. */
  lemma SafeLength(limit: int)
    requires 0 < limit <= 2_147_483_643
    ensures (forall residue: bytes, chunk: bytes | Pending(residue, limit) && |chunk| <= MAX_CHUNK ::
               Drain(residue + chunk) == Greedy(residue + chunk)) <==> limit <= 2_147_479_548
  {
    if limit <= MAX_SAFE_LENGTH {
      forall residue: bytes, chunk: bytes | Pending(residue, limit) && |chunk| <= MAX_CHUNK
        ensures Drain(residue + chunk) == Greedy(residue + chunk)
      {
        SafePending(residue, chunk);
      }
    } else {
      TooLong(limit);
    }
  }

  /** A pending frame one byte short, and a chunk that takes the buffer past INT_MAX. */
  lemma TooLong(limit: int)
    requires MAX_SAFE_LENGTH < limit <= MAX_LENGTH
    ensures var residue, chunk := EncodeI32(limit) + Zeros(limit - 1), Zeros(MAX_CHUNK);
      Pending(residue, limit) && Drain(residue + chunk) != Greedy(residue + chunk)
  {
    hide Drain, Greedy, EncodeI32, DecodeI32;
    var residue, chunk := EncodeI32(limit) + Zeros(limit - 1), Zeros(MAX_CHUNK);
    I32RoundTrip(limit, Zeros(limit - 1));
    DecodeI32Prefix(residue, chunk);
    DrainStalls(residue + chunk);
  }

  function Zeros(n: nat): (b: bytes)
    ensures |b| == n
  {
    seq(n, _ => 0)
  }

  // ---- The loop, turn by turn ------------------------------------------------------------------

  /** A parse that goes on after the segments already cut. */
  function Resume(cut: seq<Segment>, p: Parse): Parse {
    p.(segments := cut + p.segments)
  }

  lemma ResumeNothing(s: bytes)
    ensures Resume([], Drain(s)) == Drain(s)
  {
    assert [] + Drain(s).segments == Drain(s).segments;
  }

  lemma EnoughBytes(s: bytes)
    requires |s| > HEADER && ToInt32(|s|) >= DecodeI32(s) + HEADER
    ensures |s| >= DecodeI32(s) + HEADER
  {
  }

  /** The loop leaves a buffer that it cannot cut further, or stops at an overflowing length. */
  lemma ResumeStop(cut: seq<Segment>, s: bytes)
    ensures |s| <= HEADER || (0 < DecodeI32(s) <= MAX_LENGTH && ToInt32(|s|) < DecodeI32(s) + HEADER) ==>
              Resume(cut, Drain(s)) == Parse(cut, s, false)
    ensures |s| > HEADER && DecodeI32(s) > MAX_LENGTH ==> Resume(cut, Drain(s)) == Parse(cut, [], true)
  {
    assert cut + [] == cut;
  }

  lemma ResumeFrame(cut: seq<Segment>, s: bytes)
    requires |s| > HEADER && 0 < DecodeI32(s) <= MAX_LENGTH && ToInt32(|s|) >= DecodeI32(s) + HEADER
    ensures var n := DecodeI32(s) + HEADER;
      Resume(cut, Drain(s)) == Resume(cut + [Frame(s[..n])], Drain(s[n..]))
  {
    var n := DecodeI32(s) + HEADER;
    SumOfThree(cut, [Frame(s[..n])], Drain(s[n..]).segments);
  }

  lemma ResumeDiscard(cut: seq<Segment>, s: bytes)
    requires |s| > HEADER && DecodeI32(s) <= 0
    ensures Resume(cut, Drain(s)) == Resume(cut + [Discard(s)], Drain([]))
    ensures Frames(cut + [Discard(s)]) == Frames(cut)
  {
    FramesAppend(cut, [Discard(s)]);
    assert cut + [Discard(s)] == cut + [Discard(s)] + [];
  }

  // ---- Building frames -------------------------------------------------------------------------

  function FrameOf(payload: bytes): (frame: bytes)
    requires |payload| <= INT_MAX
  {
    EncodeI32(|payload|) + payload
  }

  lemma FrameOfPayload(payload: bytes)
    requires 0 < |payload| <= MAX_LENGTH
    ensures IsFrame(FrameOf(payload)) && FrameOf(payload)[HEADER..] == payload
  {
    I32RoundTrip(|payload|, payload);
  }

  lemma FrameIsFrameOf(frame: bytes)
    requires IsFrame(frame)
    ensures FrameOf(frame[HEADER..]) == frame
  {
    var header, payload := frame[..HEADER], frame[HEADER..];
    assert frame == header + payload;
    DecodeI32Prefix(header, payload);
    I32RoundTripBack(header);
  }
}
