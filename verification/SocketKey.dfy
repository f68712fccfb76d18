/** The client identity of isocket.h: a packed (IP, Port, Socket) record used as a map key. */
module SocketKey {
  import opened Wire

  datatype Key = Key(ip: uint32, port: uint16, socket: int32)

  /** sizeof(SocketClientData_t) under pack(1). */
  const KEY_SIZE: nat := 10

  predicate Less(a: Key, b: Key)
  {
    if a.ip < b.ip then true
    else if a.ip == b.ip then
      if a.port < b.port then true
      else if a.port == b.port then a.socket < b.socket
      else false
    else false
  }

  /** A std::map needs a strict weak order; this one is total, and its incomparability is equality. */
  lemma LessIsStrictTotalOrder(a: Key, b: Key, c: Key)
    ensures !Less(a, a)
    ensures Less(a, b) ==> !Less(b, a)
    ensures Less(a, b) && Less(b, c) ==> Less(a, c)
    ensures !Less(a, b) && !Less(b, a) <==> a == b
  {
  }

  /** The identity as one number, address first, descriptor last. */
  function Number(k: Key): int {
    (k.ip * 0x1_0000 + k.port) * 0x1_0000_0000 + (k.socket + 0x8000_0000)
  }

  /** The order is that of the numbers: lexicographic, each field by its own signedness. */
  lemma LessIsNumericOrder(a: Key, b: Key)
    ensures Less(a, b) <==> Number(a) < Number(b)
  {
    var x, y := a.ip * 0x1_0000 + a.port, b.ip * 0x1_0000 + b.port;
    assert Number(a) < Number(b) <==> x < y || (x == y && a.socket < b.socket);
  }

  /** The in-memory image of the record. */
  function Pack(k: Key): (b: bytes)
    ensures |b| == KEY_SIZE
  {
    EncodeU32(k.ip) + EncodeU16(k.port) + EncodeI32(k.socket)
  }

  /** Reading the record through a pointer to its image. */
  function Unpack(b: bytes): Key
    requires |b| >= KEY_SIZE
  {
    Key(DecodeU32(b), DecodeU16(b[4..]), DecodeI32(b[6..]))
  }

  /** Where the fields are in it: address, port, descriptor, with nothing in between. */
  lemma PackLayout(k: Key)
    ensures LittleEndian(Pack(k)[..4]) == k.ip && LittleEndian(Pack(k)[4..6]) == k.port
    ensures DecodeI32(Pack(k)[6..]) == k.socket
  {
    var b, ip, port, socket := Pack(k), EncodeU32(k.ip), EncodeU16(k.port), EncodeI32(k.socket);
    assert b[..4] == ip && b[4..6] == port && b[6..] == socket;
    assert ip + [] == ip && port + [] == port && socket + [] == socket;
    U32RoundTrip(k.ip, []);
    U16RoundTrip(k.port, []);
    I32RoundTrip(k.socket, []);
    IntegersAreLittleEndian(ip);
    IntegersAreLittleEndian(port);
    assert ip[..4] == ip && port[..2] == port;
  }

  lemma UnpackPack(k: Key, tail: bytes)
    ensures Unpack(Pack(k) + tail) == k
  {
    var b := Pack(k) + tail;
    assert b == EncodeU32(k.ip) + (EncodeU16(k.port) + EncodeI32(k.socket) + tail);
    U32RoundTrip(k.ip, EncodeU16(k.port) + EncodeI32(k.socket) + tail);
    assert b[4..] == EncodeU16(k.port) + (EncodeI32(k.socket) + tail);
    assert b[6..] == EncodeI32(k.socket) + tail;
    I32RoundTrip(k.socket, tail);
  }

  /** Every ten-byte image is the image of exactly one identity. */
  lemma PackUnpack(b: bytes)
    requires |b| == KEY_SIZE
    ensures Pack(Unpack(b)) == b
  {
    var ip, port, socket := b[..4], b[4..6], b[6..];
    assert b == ip + port + socket;
    assert DecodeU32(b) == DecodeU32(ip);
    assert DecodeU16(b[4..]) == DecodeU16(port);
    U32RoundTripBack(ip);
    I32RoundTripBack(socket);
    assert EncodeU16(DecodeU16(port)) == port;
  }
}
