/** CServerContentManager and CClientContentManager of tcpproxy as one mutable object with two packet handlers. */
module ProxyHandlers {
  import opened Wire
  import opened Wrappers
  import opened SocketKey
  import opened Framing
  import opened Chunking
  import opened KeyedLog
  import opened ProxyFrames

  /** What the two handlers send for a client's frames: wrapped, to that client's upstream; or unwrapped, to the
      client each frame names. */
  function Reactions(outbound: bool, k: Key, frames: seq<bytes>): seq<Entry> {
    if outbound then Tag(k, WrapAll(Tag(k, frames))) else UnwrapAll(frames)
  }

  lemma ReactionsMore(outbound: bool, k: Key, frames: seq<bytes>, frame: bytes)
    ensures Reactions(outbound, k, frames + [frame]) ==
            Reactions(outbound, k, frames) + if outbound then [(k, WrapFrame((k, frame)))] else UnwrapFrame(frame)
  {
    if outbound {
      TagMore(k, frames, frame);
      WrapAllStep(Tag(k, frames), (k, frame));
      TagMore(k, WrapAll(Tag(k, frames)), WrapFrame((k, frame)));
    } else {
      UnwrapAllStep(frames, frame);
    }
  }

  lemma NoReactions(outbound: bool, k: Key, sent: seq<Entry>)
    ensures sent + Reactions(outbound, k, Frames([])) == sent
  {
    assert WrapAll([]) == [];
  }

  class ContentManager {
    /** Whether this is the server-side manager, whose packets go to the target. */
    const outbound: bool
    var userRequests: map<Key, bytes>
    /** The sends made, with the client each is for. */
    var sent: seq<Entry>

    constructor (outbound: bool)
      ensures this.outbound == outbound && userRequests == map[] && sent == []
    {
      this.outbound := outbound;
      userRequests, sent := map[], [];
    }

    method Remove(k: Key)
      modifies this`userRequests
      ensures userRequests == old(userRequests) - {k}
    {
      userRequests := userRequests - {k};
    }

    method HandlePkt(k: Key, data: bytes)
      requires 0 < |data| <= MAX_LENGTH
      modifies this`sent
      ensures sent == old(sent) + if outbound then [(k, Wrap(k, data))]
                                  else match Unwrap(data) case None => [] case Some(e) => [e]
      ensures outbound ==>
        && |sent| == |old(sent)| + 1 && old(sent) < sent && sent[|sent| - 1].0 == k
        && (|data| <= INT_MAX - 14 ==>
              var w := sent[|sent| - 1].1;
              |w| == |data| + 14 && DecodeI32(w) == |data| + 10 && w[4..14] == Pack(k) && w[14..] == data)
      ensures !outbound && |data| <= 10 ==> sent == old(sent)
      ensures !outbound && |data| > 10 ==>
        && |sent| == |old(sent)| + 1 && old(sent) < sent
        && var (target, frame) := sent[|sent| - 1];
          Pack(target) == data[..10] && DecodeI32(frame) == |data| - 10 && frame[4..] == data[10..]
    {
      UnwrapLayout(data);
      if |data| <= INT_MAX - 14 {
        WrapLayout(k, data);
      }
      hide EncodeI32, DecodeI32, Pack, Unpack;
      var strSend: bytes := [];
      if outbound {
        var nPktLen := ToInt32(|data| + KEY_SIZE);
        assert [] + EncodeI32(nPktLen) == EncodeI32(nPktLen);
        strSend := strSend + EncodeI32(nPktLen);
        strSend := strSend + Pack(k);
        strSend := strSend + data;
        sent := sent + [(k, strSend)];
      } else {
        if |data| <= KEY_SIZE {
          return;
        }
        var target := Unpack(data);
        var nPktLen := |data| - KEY_SIZE;
        assert [] + EncodeI32(nPktLen) == EncodeI32(nPktLen);
        strSend := strSend + EncodeI32(nPktLen);
        strSend := strSend + data[KEY_SIZE..KEY_SIZE + nPktLen];
        assert data[KEY_SIZE..KEY_SIZE + nPktLen] == data[KEY_SIZE..];
        sent := sent + [(target, strSend)];
      }
    }

    /** Append the chunk, cut off whole frames and handle their payloads, keep the rest. `defined` is false if the
        addition nPktLen + 4 overflowed. */
    method Add(k: Key, chunk: bytes) returns (defined: bool)
      modifies this
      ensures var p := Drain((if k in old(userRequests) then old(userRequests)[k] else []) + chunk);
        && defined == !p.fault
        && sent == old(sent) + Reactions(outbound, k, Frames(p.segments))
        && (defined ==> userRequests == old(userRequests)[k := p.residue])
    {
      hide Drain, DecodeI32, ToInt32, Frames, Reactions, Wrap, Unwrap;
      var strData := (if k in userRequests then userRequests[k] else []) + chunk;
      ghost var whole, cut: seq<Segment> := strData, [];
      ResumeNothing(whole);
      NoReactions(outbound, k, sent);
      while |strData| > HEADER
        invariant userRequests == old(userRequests)
        invariant Drain(whole) == Resume(cut, Drain(strData))
        invariant sent == old(sent) + Reactions(outbound, k, Frames(cut))
        decreases |strData|
      {
        var nPktLen := DecodeI32(strData);
        if nPktLen <= 0 {
          ResumeDiscard(cut, strData);
          cut := cut + [Discard(strData)];
          strData := [];
          break;
        }
        if nPktLen > MAX_LENGTH {
          ResumeStop(cut, strData);
          return false;
        }
        if ToInt32(|strData|) < nPktLen + HEADER {
          break;
        }
        EnoughBytes(strData);
        var frame := strData[..nPktLen + HEADER];
        assert strData[HEADER..HEADER + nPktLen] == frame[HEADER..];
        HandlePkt(k, strData[HEADER..HEADER + nPktLen]);
        ResumeFrame(cut, strData);
        Reacted(outbound, k, cut, frame, old(sent));
        cut := cut + [Frame(frame)];
        strData := strData[nPktLen + HEADER..];
      }
      ResumeStop(cut, strData);
      userRequests := userRequests[k := strData];
      return true;
    }
  }

  lemma Reacted(outbound: bool, k: Key, cut: seq<Segment>, frame: bytes, sent: seq<Entry>)
    requires HEADER <= |frame| <= INT_MAX
    ensures sent + Reactions(outbound, k, Frames(cut + [Frame(frame)])) == sent + Reactions(outbound, k, Frames(cut)) +
              if outbound then [(k, Wrap(k, frame[HEADER..]))]
              else match Unwrap(frame[HEADER..]) case None => [] case Some(e) => [e]
  {
    hide Reactions, Wrap, Unwrap;
    FramesAppend(cut, [Frame(frame)]);
    assert Frames([Frame(frame)]) == [frame];
    ReactionsMore(outbound, k, Frames(cut), frame);
  }
}
