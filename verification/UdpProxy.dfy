/** udpproxy: each datagram carries a length field of its own, and the proxy puts the sender's address after it. */
module UdpProxy {
  import opened Wire
  import opened Wrappers
  import opened Remainders

  const HEADER: nat := 4
  const ADDRESS: nat := 6

  /** The buffer recvfrom fills; a longer datagram is cut off. */
  const RECEIVE_SIZE: nat := 1500

  datatype Packet = Packet(ip: uint32, port: uint16, data: bytes)

  function Received(d: bytes): bytes {
    if |d| <= RECEIVE_SIZE then d else d[..RECEIVE_SIZE]
  }

  /** What is sent to the target for datagram d from (ip, port), or nothing. */
  function Wrap(ip: uint32, port: uint16, d: bytes): Option<bytes>
    requires |d| <= RECEIVE_SIZE
  {
    if |d| <= HEADER then None
    else Some(EncodeI32(|d| - HEADER + ADDRESS) + (EncodeU32(ip) + EncodeU16(port) + d[HEADER..]))
  }

  /** What is sent back for datagram d from the target, and to whom, or nothing. */
  function Unwrap(d: bytes): Option<Packet>
    requires |d| <= RECEIVE_SIZE
  {
    if |d| <= HEADER + ADDRESS then None
    else Some(Packet(DecodeU32(d[HEADER..]), DecodeU16(d[HEADER + 4..]),
                     EncodeI32(|d| - HEADER - ADDRESS) + d[HEADER + ADDRESS..]))
  }

  /** The bytes of a wrapped datagram: its own length, the sender's address and port, then the payload. */
  lemma WrapLayout(ip: uint32, port: uint16, d: bytes)
    requires 4 < |d| <= 1500
    ensures Wrap(ip, port, d).Some?
    ensures var w := Wrap(ip, port, d).value;
      && |w| == |d| + 6 && DecodeI32(w) == |w| - 4
      && DecodeU32(w[4..]) == ip && DecodeU16(w[8..]) == port && w[10..] == d[4..]
  {
    hide EncodeI32, EncodeU32, EncodeU16, DecodeI32, DecodeU32, DecodeU16;
    var w, tail := Wrap(ip, port, d).value, EncodeU32(ip) + EncodeU16(port) + d[4..];
    I32RoundTrip(|d| + 2, tail);
    SumOfThree(EncodeU32(ip), EncodeU16(port), d[4..]);
    assert w[4..] == EncodeU32(ip) + (EncodeU16(port) + d[4..]);
    U32RoundTrip(ip, EncodeU16(port) + d[4..]);
    assert w[8..] == EncodeU16(port) + d[4..];
    U16RoundTrip(port, d[4..]);
  }

  lemma UnwrapLayout(d: bytes)
    requires 10 < |d| <= 1500
    ensures Unwrap(d).Some?
    ensures var p := Unwrap(d).value;
      && p.ip == DecodeU32(d[4..]) && p.port == DecodeU16(d[8..])
      && DecodeI32(p.data) == |p.data| - 4 && p.data[4..] == d[10..]
  {
    I32RoundTrip(|d| - 10, d[10..]);
  }

  /** CUdpServerDataHandle::OnDataReceived: a target that frames by length reads the wrapped datagram as one message. */
  method OnClientDatagram(ip: uint32, port: uint16, d: bytes) returns (sent: Option<bytes>)
    requires |d| <= RECEIVE_SIZE
    ensures sent == Wrap(ip, port, d)
    ensures sent == None <==> |d| <= 4
    ensures sent.Some? ==>
      var w := sent.value;
      && |w| == |d| + 6 && DecodeI32(w) == |w| - 4
      && DecodeU32(w[4..]) == ip && DecodeU16(w[8..]) == port && w[10..] == d[4..]
  {
    hide EncodeI32, EncodeU32, EncodeU16, DecodeI32, DecodeU32, DecodeU16;
    if |d| <= HEADER {
      return None;
    }
    var strSend: bytes := [];
    var nPktLen := |d| - HEADER + ADDRESS;
    strSend := strSend + EncodeI32(nPktLen);
    strSend := strSend + EncodeU32(ip);
    strSend := strSend + EncodeU16(port);
    strSend := strSend + d[HEADER..];
    var e := EncodeI32(nPktLen);
    assert [] + e == e;
    SumOfThree(e, EncodeU32(ip), EncodeU16(port));
    SumOfThree(e, EncodeU32(ip) + EncodeU16(port), d[HEADER..]);
    WrapLayout(ip, port, d);
    return Some(strSend);
  }

  /** CUdpClientDataHandle::OnDataReceived. */
  method OnTargetDatagram(d: bytes) returns (sent: Option<Packet>)
    requires |d| <= RECEIVE_SIZE
    ensures sent == Unwrap(d)
    ensures sent == None <==> |d| <= 10
    ensures sent.Some? ==>
      var p := sent.value;
      && p.ip == DecodeU32(d[4..]) && p.port == DecodeU16(d[8..])
      && DecodeI32(p.data) == |p.data| - 4 && p.data[4..] == d[10..]
  {
    hide EncodeI32, DecodeI32, DecodeU32, DecodeU16;
    if |d| <= HEADER + ADDRESS {
      return None;
    }
    var strSend: bytes := [];
    var nPktLen := |d| - HEADER - ADDRESS;
    strSend := strSend + EncodeI32(nPktLen);
    strSend := strSend + d[HEADER + ADDRESS..];
    var ip := DecodeU32(d[HEADER..]);
    var port := DecodeU16(d[HEADER + 4..]);
    assert [] + EncodeI32(nPktLen) == EncodeI32(nPktLen);
    UnwrapLayout(d);
    return Some(Packet(ip, port, strSend));
  }

  /** CUdpProxyClientPool::__Hash: the sum wraps as an unsigned int. */
  function Upstream(ip: uint32, port: uint16, concurrency: nat): nat
    requires concurrency > 0
  {
    (ip + port) % 0x1_0000_0000 % concurrency
  }

  /** Senders at one address with consecutive ports are spread evenly: of any `concurrency` of them, as long as the sum
      does not wrap, each upstream gets exactly one. */
  lemma SendersSpread(ip: uint32, port: uint16, concurrency: nat, i: nat) returns (p: uint16)
    requires i < concurrency && port + concurrency <= 0x1_0000 && ip + port + concurrency <= 0x1_0000_0000
    ensures port <= p < port + concurrency && (ip + p) % concurrency == i
    ensures forall q: uint16 | port <= q < port + concurrency :: Upstream(ip, q, concurrency) == i <==> q == p
  {
    var x := OneInWindow(ip + port, concurrency, i);
    p := x - ip;
  }

  /** What comes back for a datagram whose wrapped form the target echoes, having received what fits its buffer. */
  function Echoed(ip: uint32, port: uint16, d: bytes): Option<Packet>
    requires |d| <= RECEIVE_SIZE
  {
    match Wrap(ip, port, d)
    case None => None
    case Some(w) => Unwrap(Received(Received(w)))
  }

  /** The sender's address always comes back; the payload does exactly if the wrapped datagram fits the buffer. */
  lemma EchoReturns(ip: uint32, port: uint16, d: bytes)
    requires HEADER < |d| <= RECEIVE_SIZE
    ensures Echoed(ip, port, d).Some?
    ensures var p := Echoed(ip, port, d).value;
      && p.ip == ip && p.port == port
      && (p.data == EncodeI32(|d| - 4) + d[4..] <==> |d| <= 1494)
  {
    hide EncodeI32, DecodeU32, EncodeU32;
    var w := Wrap(ip, port, d).value;
    var r := Received(w);
    var tail := r[HEADER + ADDRESS..];
    assert tail <= d[HEADER..];
    assert r[HEADER..] == EncodeU32(ip) + (EncodeU16(port) + tail);
    U32RoundTrip(ip, EncodeU16(port) + tail);
    assert r[HEADER + 4..] == EncodeU16(port) + tail;
    assert Received(r) == r;
    if |w| > RECEIVE_SIZE {
      assert |Echoed(ip, port, d).value.data| < |d|;
    }
  }

  /** What comes back is the datagram itself exactly if, besides, its length field was right. */
  lemma EchoIsIdentity(ip: uint32, port: uint16, d: bytes)
    requires HEADER < |d| <= RECEIVE_SIZE
    ensures Echoed(ip, port, d) == Some(Packet(ip, port, d)) <==>
            |d| <= 1494 && DecodeI32(d) == |d| - 4
  {
    EchoReturns(ip, port, d);
    hide Echoed, EncodeI32, DecodeI32;
    var header, rest := d[..HEADER], d[HEADER..];
    assert d == header + rest;
    DecodeI32Prefix(header, rest);
    I32RoundTripBack(header);
    I32RoundTrip(|d| - HEADER, rest);
    if |d| + ADDRESS > RECEIVE_SIZE {
      ShorterEcho(ip, port, d);
    } else {
      assert Echoed(ip, port, d).value.data == EncodeI32(|d| - HEADER) + rest;
      assert (EncodeI32(|d| - HEADER) + rest)[..HEADER] == EncodeI32(|d| - HEADER);
    }
  }

  lemma ShorterEcho(ip: uint32, port: uint16, d: bytes)
    requires HEADER < |d| <= RECEIVE_SIZE && |d| + ADDRESS > RECEIVE_SIZE
    ensures Echoed(ip, port, d) != Some(Packet(ip, port, d))
  {
    var w := Wrap(ip, port, d).value;
    assert Received(Received(w)) == Received(w);
  }
}
