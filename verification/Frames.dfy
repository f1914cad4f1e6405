/** The wire format: how a packet is laid out as a frame, and the accessors that take a frame apart. */
module Frames {
  import opened Bytes

  const FIRST_BYTE: byte := 0x44
  const SECOND_BYTE: byte := 0x4B
  const HEADER_SIZE := 10
  const MIN_FRAME := 11
  const MAX_FRAME := 1024

  datatype Packet = Packet(dest: byte, number: byte, typeId: uint16, payload: seq<byte>)

  /** What `SendPacket` asserts of its argument. */
  predicate Sendable(p: Packet) {
    |p.payload| < MAX_FRAME - MIN_FRAME
  }

  /** Everything but the trailing checksum byte. */
  function Body(p: Packet): seq<byte> {
    var size := MIN_FRAME + |p.payload|;
    [FIRST_BYTE, SECOND_BYTE, LowByte(size), HighByte(size), p.dest, 0, p.number, 0,
     LowByte(p.typeId), HighByte(p.typeId)] + p.payload
  }

  function Encode(p: Packet): (frame: seq<byte>)
    ensures |frame| == MIN_FRAME + |p.payload|
  {
    Body(p) + [Checksum(Body(p))]
  }

  function EncodeAll(ps: seq<Packet>): seq<byte> {
    if ps == [] then [] else EncodeAll(ps[..|ps| - 1]) + Encode(ps[|ps| - 1])
  }

  lemma Regroup<T>(a: seq<T>, b: seq<T>, c: seq<T>)
    ensures a + b + c == a + (b + c)
  {
  }

  lemma {:induction false} EncodeAllAppend(a: seq<Packet>, b: seq<Packet>)
    ensures EncodeAll(a + b) == EncodeAll(a) + EncodeAll(b)
  {
    hide Encode;
    if b == [] {
      assert a + b == a;
    } else {
      var front, last := b[..|b| - 1], b[|b| - 1];
      EncodeAllAppend(a, front);
      assert (a + b)[..|a + b| - 1] == a + front && (a + b)[|a + b| - 1] == last;
      Regroup(EncodeAll(a), EncodeAll(front), Encode(last));
    }
  }

  // Accessors on a received frame.

  /** The shape the receive framer guarantees for everything it delivers. */
  predicate WellFramed(data: seq<byte>) {
    && MIN_FRAME <= |data| <= MAX_FRAME
    && data[0] == FIRST_BYTE && data[1] == SECOND_BYTE
    && |data| == Uint16(data[2], data[3])
  }

  function PacketDestinationAddress(data: seq<byte>): byte
    requires |data| >= MIN_FRAME
  {
    data[4]
  }

  function PacketSourceAddress(data: seq<byte>): byte
    requires |data| >= MIN_FRAME
  {
    data[5]
  }

  /** The number the sender of this frame gave it. */
  function PacketMessageNumber(data: seq<byte>): byte
    requires |data| >= MIN_FRAME
  {
    data[6]
  }

  /** In a reply: the number of the frame it answers. */
  function PacketReferenceNumber(data: seq<byte>): byte
    requires |data| >= MIN_FRAME
  {
    data[7]
  }

  function PacketId(data: seq<byte>): uint16
    requires |data| >= MIN_FRAME
  {
    Uint16(data[8], data[9])
  }

  function PacketPayload(data: seq<byte>): seq<byte>
    requires |data| >= MIN_FRAME
  {
    data[HEADER_SIZE..|data| - 1]
  }

  function PacketCrc(data: seq<byte>): byte
    requires |data| >= MIN_FRAME
  {
    data[|data| - 1]
  }

  /** A frame is well framed and the accessors give back every field of its packet. */
  lemma AccessorsInvertEncode(p: Packet)
    requires Sendable(p)
    ensures WellFramed(Encode(p))
    ensures PacketDestinationAddress(Encode(p)) == p.dest
    ensures PacketMessageNumber(Encode(p)) == p.number
    ensures PacketSourceAddress(Encode(p)) == 0 && PacketReferenceNumber(Encode(p)) == 0
    ensures PacketId(Encode(p)) == p.typeId
    ensures PacketPayload(Encode(p)) == p.payload
    ensures PacketCrc(Encode(p)) == Checksum(Encode(p)[..|Encode(p)| - 1])
  {
    LittleEndianRoundTrip(p.typeId);
    LittleEndianRoundTrip(MIN_FRAME + |p.payload|);
    assert Encode(p)[..|Encode(p)| - 1] == Body(p);
  }

  lemma EncodedCrc(p: Packet)
    ensures PacketCrc(Encode(p)) == Checksum(Body(p))
  {
  }

  /** Frames are self-delimiting: no two packets have the same encoding. */
  lemma EncodeInjective(p: Packet, q: Packet)
    requires Sendable(p) && Sendable(q)
    requires Encode(p) == Encode(q)
    ensures p == q
  {
    AccessorsInvertEncode(p);
    AccessorsInvertEncode(q);
  }
}
