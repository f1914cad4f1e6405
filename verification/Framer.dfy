/** The receive framer: a one-byte-at-a-time automaton, what holds of it, and the bulk-copying class that refines it. */
module Framer {
  import opened Bytes
  import opened Frames

  datatype Mode = FirstByte | SecondByte | Header | Payload | Crc

  datatype Parser = Parser(mode: Mode, storage: seq<byte>, bytesToReceive: nat, crc: byte)

  /** One call of the packet callback. */
  datatype Delivery = Delivery(data: seq<byte>, crc: byte)

  datatype Fed = Fed(parser: Parser, delivered: seq<Delivery>)

  function Idle(bytesToReceive: nat, crc: byte): Parser {
    Parser(FirstByte, [], bytesToReceive, crc)
  }

  /** The state after any prefix of a frame; the length field rules the modes after the header. */
  predicate Coherent(s: Parser) {
    match s.mode
    case FirstByte => s.storage == []
    case SecondByte => s.storage == [FIRST_BYTE]
    case Header => 2 <= |s.storage| < HEADER_SIZE && Marked(s.storage)
    case Payload =>
      && HeaderDone(s.storage)
      && s.bytesToReceive == LengthField(s.storage) - MIN_FRAME
      && |s.storage| < LengthField(s.storage) - 1
    case Crc => HeaderDone(s.storage) && |s.storage| == LengthField(s.storage) - 1
  }

  predicate Marked(storage: seq<byte>) {
    |storage| >= 2 && storage[0] == FIRST_BYTE && storage[1] == SECOND_BYTE
  }

  function LengthField(storage: seq<byte>): uint16
    requires |storage| >= HEADER_SIZE
  {
    Uint16(storage[2], storage[3])
  }

  predicate HeaderDone(storage: seq<byte>) {
    && |storage| >= HEADER_SIZE
    && Marked(storage)
    && MIN_FRAME <= LengthField(storage) <= MAX_FRAME
  }

  /** Storing one byte and adding it to the running checksum. */
  function Store(s: Parser, b: byte): Parser {
    s.(storage := s.storage + [b], crc := (s.crc + b) % 0x100)
  }

  /** The decision taken when the tenth header byte has been stored. */
  function AfterHeader(s: Parser): Parser
    requires |s.storage| == HEADER_SIZE
  {
    var length := LengthField(s.storage);
    if length < MIN_FRAME || length > MAX_FRAME then
      Parser(FirstByte, [], s.bytesToReceive, 0)
    else if length > MIN_FRAME then
      s.(bytesToReceive := length - MIN_FRAME, mode := Payload)
    else
      s.(mode := Crc)
  }

  function Step(s: Parser, b: byte): (r: Fed)
    requires Coherent(s)
    ensures Coherent(r.parser)
  {
    match s.mode
    case FirstByte =>
      Fed(if b == FIRST_BYTE then Store(s, b).(mode := SecondByte) else s, [])
    case SecondByte =>
      Fed(if b == SECOND_BYTE then Store(s, b).(mode := Header)
          else s.(storage := [], mode := FirstByte), [])
    case Header =>
      var t := Store(s, b);
      Fed(if |t.storage| == HEADER_SIZE then AfterHeader(t) else t, [])
    case Payload =>
      var t := Store(s, b);
      Fed(if |t.storage| == HEADER_SIZE + t.bytesToReceive then t.(mode := Crc) else t, [])
    case Crc =>
      Fed(Idle(s.bytesToReceive, 0), [Delivery(s.storage + [b], s.crc)])
  }

  function Feed(s: Parser, bytes: seq<byte>): (r: Fed)
    requires Coherent(s)
    ensures Coherent(r.parser)
    decreases |bytes|
  {
    if bytes == [] then Fed(s, []) else
    var one := Step(s, bytes[0]);
    var rest := Feed(one.parser, bytes[1..]);
    Fed(rest.parser, one.delivered + rest.delivered)
  }

  /** Feeding a stream cut into chunks, one call per chunk. */
  function FeedChunks(s: Parser, chunks: seq<seq<byte>>): (r: Fed)
    requires Coherent(s)
    ensures Coherent(r.parser)
    decreases |chunks|
  {
    if chunks == [] then Fed(s, []) else
    var one := Feed(s, chunks[0]);
    var rest := FeedChunks(one.parser, chunks[1..]);
    Fed(rest.parser, one.delivered + rest.delivered)
  }

  function Joined(chunks: seq<seq<byte>>): seq<byte> {
    if chunks == [] then [] else chunks[0] + Joined(chunks[1..])
  }

  // ---- Chunking independence ----

  lemma {:induction false} FeedAppend(s: Parser, a: seq<byte>, b: seq<byte>)
    requires Coherent(s)
    ensures Feed(s, a + b).parser == Feed(Feed(s, a).parser, b).parser
    ensures Feed(s, a + b).delivered == Feed(s, a).delivered + Feed(Feed(s, a).parser, b).delivered
    decreases |a|
  {
    if a == [] {
      assert a + b == b;
    } else {
      assert (a + b)[0] == a[0] && (a + b)[1..] == a[1..] + b;
      FeedAppend(Step(s, a[0]).parser, a[1..], b);
    }
  }

  /** However a stream is cut into reads, the deliveries and the final state are the same. */
  lemma {:induction false} ChunkingIndependence(s: Parser, chunks: seq<seq<byte>>)
    requires Coherent(s)
    ensures FeedChunks(s, chunks) == Feed(s, Joined(chunks))
    decreases |chunks|
  {
    if chunks != [] {
      FeedAppend(s, chunks[0], Joined(chunks[1..]));
      ChunkingIndependence(Feed(s, chunks[0]).parser, chunks[1..]);
    }
  }

  // ---- Framing soundness ----

  /** Every delivery is a frame whose own length field is its length. */
  lemma {:induction false} DeliveriesAreFrames(s: Parser, bytes: seq<byte>)
    requires Coherent(s)
    ensures forall d | d in Feed(s, bytes).delivered :: WellFramed(d.data)
    decreases |bytes|
  {
    if bytes != [] {
      DeliveriesAreFrames(Step(s, bytes[0]).parser, bytes[1..]);
    }
  }

  // ---- The running checksum ----

  /** Second-byte mismatches since the checksum was last zeroed: they leave 0x44 behind in it. */
  function MismatchesAfter(s: Parser, k: nat, b: byte): nat
    requires Coherent(s)
  {
    match s.mode
    case SecondByte => if b == SECOND_BYTE then k else k + 1
    case Header => if Step(s, b).parser.mode == FirstByte then 0 else k
    case Crc => 0
    case _ => k
  }

  function Mismatches(s: Parser, k: nat, bytes: seq<byte>): nat
    requires Coherent(s)
    decreases |bytes|
  {
    if bytes == [] then k
    else Mismatches(Step(s, bytes[0]).parser, MismatchesAfter(s, k, bytes[0]), bytes[1..])
  }

  predicate ChecksumLaw(s: Parser, k: nat) {
    s.crc == (Sum(s.storage) + FIRST_BYTE * k) % 0x100
  }

  lemma StoreKeepsLaw(s: Parser, k: nat, b: byte)
    requires ChecksumLaw(s, k)
    ensures ChecksumLaw(Store(s, b), k)
  {
    SumAppend(s.storage, [b]);
    SumSingle(b);
    AddModulo(Sum(s.storage) + FIRST_BYTE * k, b);
  }

  lemma ChecksumStep(s: Parser, k: nat, b: byte)
    requires Coherent(s) && ChecksumLaw(s, k)
    ensures ChecksumLaw(Step(s, b).parser, MismatchesAfter(s, k, b))
  {
    SumSingle(FIRST_BYTE);
    StoreKeepsLaw(s, k, b);
    assert Sum([]) == 0;
    hide Sum;
  }

  /** The law in every state a byte stream can reach. */
  lemma {:induction false} ChecksumLawHolds(s: Parser, k: nat, bytes: seq<byte>)
    requires Coherent(s) && ChecksumLaw(s, k)
    ensures ChecksumLaw(Feed(s, bytes).parser, Mismatches(s, k, bytes))
    decreases |bytes|
  {
    if bytes != [] {
      ChecksumStep(s, k, bytes[0]);
      ChecksumLawHolds(Step(s, bytes[0]).parser, MismatchesAfter(s, k, bytes[0]), bytes[1..]);
    }
  }

  // ---- One whole frame ----

  /** A uint8_t checksum after adding a run of bytes to it. */
  function Accumulate(crc: byte, bytes: seq<byte>): byte {
    (crc + Sum(bytes)) % 0x100
  }

  lemma AccumulateAppend(crc: byte, a: seq<byte>, b: seq<byte>)
    ensures Accumulate(Accumulate(crc, a), b) == Accumulate(crc, a + b)
  {
    SumAppend(a, b);
    AddModulo(crc + Sum(a), Sum(b));
  }

  lemma AccumulateOne(crc: byte, b: byte)
    ensures Accumulate(crc, [b]) == (crc + b) % 0x100
    ensures Accumulate(crc, []) == crc
  {
    SumSingle(b);
  }

  /** Storing a run of bytes in the header or payload without completing the part. */
  function StoreAll(s: Parser, bytes: seq<byte>): Parser {
    s.(storage := s.storage + bytes, crc := Accumulate(s.crc, bytes))
  }

  function Needed(s: Parser): nat
    requires Coherent(s) && (s.mode == Header || s.mode == Payload)
  {
    if s.mode == Header then HEADER_SIZE - |s.storage|
    else s.bytesToReceive - (|s.storage| - HEADER_SIZE)
  }

  /** What the framer does once `Needed` bytes have been stored. */
  function Completed(s: Parser): Parser
    requires s.mode == Header ==> |s.storage| == HEADER_SIZE
  {
    if s.mode == Header then AfterHeader(s) else s.(mode := Crc)
  }

  lemma StoreAllCons(s: Parser, bytes: seq<byte>)
    requires bytes != []
    ensures StoreAll(Store(s, bytes[0]), bytes[1..]) == StoreAll(s, bytes)
    ensures StoreAll(s, []) == s
  {
    hide Accumulate;
    AccumulateOne(s.crc, bytes[0]);
    assert bytes == [bytes[0]] + bytes[1..];
    AccumulateAppend(s.crc, [bytes[0]], bytes[1..]);
    assert s.storage + [bytes[0]] + bytes[1..] == s.storage + bytes;
  }

  /** The bulk copy equals feeding its bytes one at a time. */
  lemma {:induction false} BulkCopy(s: Parser, bytes: seq<byte>)
    requires Coherent(s) && (s.mode == Header || s.mode == Payload)
    requires |bytes| <= Needed(s)
    ensures Feed(s, bytes) ==
            Fed(if |bytes| == Needed(s) then Completed(StoreAll(s, bytes)) else StoreAll(s, bytes), [])
    decreases |bytes|
  {
    hide Accumulate;
    AccumulateOne(s.crc, 0);
    if bytes == [] {
      assert s.storage + [] == s.storage;
    } else {
      StoreAllCons(s, bytes);
      var t := Step(s, bytes[0]).parser;
      if |bytes| == 1 {
        assert bytes[1..] == [];
        AccumulateOne(Store(s, bytes[0]).crc, 0);
        assert StoreAll(Store(s, bytes[0]), []).storage == Store(s, bytes[0]).storage;
        assert Feed(t, []) == Fed(t, []);
      } else {
        assert t == Store(s, bytes[0]);
        BulkCopy(t, bytes[1..]);
      }
    }
  }

  lemma FeedNothing(s: Parser)
    requires Coherent(s)
    ensures Feed(s, []) == Fed(s, [])
  {
  }

  lemma FeedOne(s: Parser, b: byte)
    requires Coherent(s)
    ensures Feed(s, [b]) == Step(s, b)
  {
    var one := Step(s, b);
    assert [b][1..] == [];
    assert Feed(one.parser, []) == Fed(one.parser, []);
    assert one.delivered + [] == one.delivered;
  }

  lemma StoreAllAppend(s: Parser, a: seq<byte>, b: seq<byte>)
    ensures StoreAll(StoreAll(s, a), b) == StoreAll(s, a + b)
  {
    AccumulateAppend(s.crc, a, b);
    assert s.storage + a + b == s.storage + (a + b);
  }

  lemma FeedMark(s: Parser)
    requires s.mode == FirstByte && s.storage == []
    ensures Feed(s, [FIRST_BYTE, SECOND_BYTE]) ==
            Fed(StoreAll(s, [FIRST_BYTE, SECOND_BYTE]).(mode := Header), [])
  {
    hide Feed, Accumulate;
    var one := Step(s, FIRST_BYTE).parser;
    FeedOne(s, FIRST_BYTE);
    FeedOne(one, SECOND_BYTE);
    AccumulateOne(s.crc, FIRST_BYTE);
    AccumulateOne(one.crc, SECOND_BYTE);
    FeedAppend(s, [FIRST_BYTE], [SECOND_BYTE]);
    assert [FIRST_BYTE] + [SECOND_BYTE] == [FIRST_BYTE, SECOND_BYTE];
    StoreAllAppend(s, [FIRST_BYTE], [SECOND_BYTE]);
  }

  /** Ten header bytes with a good length field take an idle parser to the payload or the checksum byte. */
  lemma FeedHeader(s: Parser, head: seq<byte>)
    requires s.mode == FirstByte && s.storage == []
    requires |head| == HEADER_SIZE && HeaderDone(head)
    ensures Feed(s, head) == Fed(AfterHeader(StoreAll(s, head)), [])
  {
    hide Feed, Accumulate;
    var mark, rest := head[..2], head[2..];
    assert mark == [FIRST_BYTE, SECOND_BYTE] && head == mark + rest;
    FeedMark(s);
    FeedAppend(s, mark, rest);
    var s2 := StoreAll(s, mark).(mode := Header);
    BulkCopy(s2, rest);
    StoreAllAppend(s, mark, rest);
    assert StoreAll(s2, rest) == StoreAll(s, head).(mode := Header);
  }

  lemma FeedPayload(s: Parser, data: seq<byte>)
    requires Coherent(s)
    requires data != [] ==> s.mode == Payload && Needed(s) == |data|
    requires data == [] ==> s.mode == Crc
    ensures Feed(s, data) == Fed(StoreAll(s, data).(mode := Crc), [])
  {
    if data == [] {
      AccumulateOne(s.crc, 0);
      assert s.storage + [] == s.storage;
    } else {
      BulkCopy(s, data);
    }
  }

  lemma FeedAfterHeader(t: Parser, data: seq<byte>)
    requires |t.storage| == HEADER_SIZE && HeaderDone(t.storage)
    requires LengthField(t.storage) == MIN_FRAME + |data|
    ensures Feed(AfterHeader(t), data) ==
            Fed(StoreAll(t, data).(mode := Crc, bytesToReceive := if data == [] then t.bytesToReceive else |data|), [])
  {
    hide Feed, Accumulate;
    FeedPayload(AfterHeader(t), data);
  }

  /** Head and payload of a frame leave the parser waiting for the checksum byte. */
  lemma FeedBody(left: nat, crc: byte, head: seq<byte>, data: seq<byte>)
    requires |head| == HEADER_SIZE && HeaderDone(head)
    requires LengthField(head) == MIN_FRAME + |data|
    ensures Feed(Idle(left, crc), head + data) ==
            Fed(Parser(Crc, head + data, if data == [] then left else |data|, Accumulate(crc, head + data)), [])
  {
    hide Feed, Accumulate;
    var s := Idle(left, crc);
    FeedHeader(s, head);
    var t := StoreAll(s, head);
    assert t.storage == head by { assert s.storage + head == head; }
    StoreAllAppend(s, head, data);
    var u := StoreAll(s, head + data);
    assert u == Parser(FirstByte, head + data, left, Accumulate(crc, head + data)) by {
      assert s.storage + (head + data) == head + data;
    }
    FeedAppend(s, head, data);
    FeedAfterHeader(t, data);
  }

  lemma FeedParts(left: nat, crc: byte, head: seq<byte>, data: seq<byte>, last: byte)
    requires |head| == HEADER_SIZE && HeaderDone(head)
    requires LengthField(head) == MIN_FRAME + |data|
    ensures Feed(Idle(left, crc), head + data + [last]) ==
            Fed(Idle(if data == [] then left else |data|, 0),
                [Delivery(head + data + [last], Accumulate(crc, head + data))])
  {
    hide Feed, Accumulate;
    FeedBody(left, crc, head, data);
    var s' := Feed(Idle(left, crc), head + data).parser;
    FeedAppend(Idle(left, crc), head + data, [last]);
    FeedOne(s', last);
  }

  /** A frame read from an idle parser is delivered whole; whatever checksum was left over is added to its own. */
  lemma FeedFrame(p: Packet, left: nat, crc: byte)
    requires Sendable(p)
    ensures Feed(Idle(left, crc), Encode(p)) ==
            Fed(Idle(if p.payload == [] then left else |p.payload|, 0),
                [Delivery(Encode(p), Accumulate(crc, Body(p)))])
  {
    hide Feed, Accumulate;
    var head, last := Body(p)[..HEADER_SIZE], Checksum(Body(p));
    assert Body(p) == head + p.payload;
    assert HeaderDone(head) && LengthField(head) == MIN_FRAME + |p.payload| by {
      LittleEndianRoundTrip(MIN_FRAME + |p.payload|);
    }
    FeedParts(left, crc, head, p.payload, last);
  }

  lemma FeedGoodFrame(p: Packet, left: nat)
    requires Sendable(p)
    ensures Feed(Idle(left, 0), Encode(p)) ==
            Fed(Idle(if p.payload == [] then left else |p.payload|, 0), [Delivery(Encode(p), Checksum(Body(p)))])
  {
    hide Feed, Sum, Encode, Body;
    FeedFrame(p, left, 0);
  }

  // ---- Streams of frames ----

  function Deliveries(ps: seq<Packet>): seq<Delivery> {
    if ps == [] then [] else Deliveries(ps[..|ps| - 1]) + [Delivery(Encode(ps[|ps| - 1]), Checksum(Body(ps[|ps| - 1])))]
  }

  /** Any list of packets, sent back to back and cut into any chunks, arrives frame by frame and in order. */
  lemma StreamRoundTrip(ps: seq<Packet>, left: nat, chunks: seq<seq<byte>>)
    requires forall p | p in ps :: Sendable(p)
    requires Joined(chunks) == EncodeAll(ps)
    ensures FeedChunks(Idle(left, 0), chunks).delivered == Deliveries(ps)
    ensures FeedChunks(Idle(left, 0), chunks).parser.(bytesToReceive := left) == Idle(left, 0)
  {
    ChunkingIndependence(Idle(left, 0), chunks);
    FeedStream(ps, left);
  }

  lemma {:induction false} FeedStream(ps: seq<Packet>, left: nat)
    requires forall p | p in ps :: Sendable(p)
    ensures Feed(Idle(left, 0), EncodeAll(ps)).delivered == Deliveries(ps)
    ensures Feed(Idle(left, 0), EncodeAll(ps)).parser.(bytesToReceive := left) == Idle(left, 0)
  {
    hide Encode, Body, Checksum, Step;
    if ps == [] {
      assert Feed(Idle(left, 0), []) == Fed(Idle(left, 0), []);
    } else {
      hide Feed;
      var front, p := ps[..|ps| - 1], ps[|ps| - 1];
      FeedStream(front, left);
      FeedAppend(Idle(left, 0), EncodeAll(front), Encode(p));
      var middle := Feed(Idle(left, 0), EncodeAll(front)).parser;
      assert middle == Idle(middle.bytesToReceive, 0);
      FeedGoodFrame(p, middle.bytesToReceive);
    }
  }

  /** What the receiver of `Deliveries(ps)` reads out of the i-th one: the i-th packet, with a passing checksum. */
  lemma {:induction false} DeliveryCarriesPacket(ps: seq<Packet>, i: nat)
    requires i < |ps| && forall p | p in ps :: Sendable(p)
    ensures |Deliveries(ps)| == |ps|
    ensures var d := Deliveries(ps)[i];
            && WellFramed(d.data)
            && d.crc == PacketCrc(d.data)
            && PacketDestinationAddress(d.data) == ps[i].dest
            && PacketMessageNumber(d.data) == ps[i].number
            && PacketId(d.data) == ps[i].typeId
            && PacketPayload(d.data) == ps[i].payload
  {
    AccessorsInvertEncode(ps[|ps| - 1]);
    if i < |ps| - 1 {
      DeliveryCarriesPacket(ps[..|ps| - 1], i);
    } else if |ps| > 1 {
      DeliveryCarriesPacket(ps[..|ps| - 1], 0);
    }
  }

  // ---- Frames after line noise ----

  lemma MismatchResidue(crc: byte, k: nat, total: nat)
    requires crc == (FIRST_BYTE * k) % 0x100
    ensures (crc + total) % 0x100 == total % 0x100 <==> k % 64 == 0
  {
    var m, j := FIRST_BYTE * k / 0x100, k / 64;
    assert 68 * k == 0x100 * m + crc;
    if crc == 0 {
      assert k == 64 * (49 * m - 13 * k);
    }
    if k % 64 == 0 {
      assert 68 * k == 0x100 * (17 * j);
    }
    NonzeroShift(crc, total);
  }

  lemma NonzeroShift(crc: byte, total: nat)
    ensures (crc + total) % 0x100 == total % 0x100 <==> crc == 0
  {
  }

  /**
   * A good frame that starts while the parser is idle after arbitrary noise is always delivered whole, but it
   * passes the checksum test exactly when 64 divides the number of second-byte mismatches the noise left behind.
   */
  lemma FrameAfterNoise(noise: seq<byte>, p: Packet)
    requires Sendable(p)
    requires Feed(Idle(0, 0), noise).parser.mode == FirstByte
    ensures var before := Feed(Idle(0, 0), noise);
            var after := Feed(Idle(0, 0), noise + Encode(p));
            exists crc: byte ::
              && after.delivered == before.delivered + [Delivery(Encode(p), crc)]
              && (crc == PacketCrc(Encode(p)) <==> Mismatches(Idle(0, 0), 0, noise) % 64 == 0)
  {
    assert ChecksumLaw(Idle(0, 0), 0);
    EncodedCrc(p);
    var s := Feed(Idle(0, 0), noise).parser;
    var k := Mismatches(Idle(0, 0), 0, noise);
    ChecksumLawHolds(Idle(0, 0), 0, noise);
    assert s == Idle(s.bytesToReceive, s.crc) && s.crc == (FIRST_BYTE * k) % 0x100;
    MismatchResidue(s.crc, k, Sum(Body(p)));
    assert Accumulate(s.crc, Body(p)) == Checksum(Body(p)) <==> k % 64 == 0;
    hide Encode, Body, Sum, Step, Feed, Mismatches, Accumulate, Checksum, ChecksumLaw;
    FeedAppend(Idle(0, 0), noise, Encode(p));
    FeedFrame(p, s.bytesToReceive, s.crc);
  }

  /** The second frame after the noise always passes: any delivery zeroes the running checksum. */
  lemma SecondFrameAfterNoise(noise: seq<byte>, p: Packet, q: Packet)
    requires Sendable(p) && Sendable(q)
    requires Feed(Idle(0, 0), noise).parser.mode == FirstByte
    ensures var before := Feed(Idle(0, 0), noise + Encode(p));
            Feed(Idle(0, 0), noise + Encode(p) + Encode(q)).delivered ==
            before.delivered + [Delivery(Encode(q), PacketCrc(Encode(q)))]
  {
    hide Encode, Body, Feed, Checksum, Accumulate;
    EncodedCrc(q);
    var start := Feed(Idle(0, 0), noise).parser;
    FeedAppend(Idle(0, 0), noise, Encode(p));
    assert start == Idle(start.bytesToReceive, start.crc);
    FeedFrame(p, start.bytesToReceive, start.crc);
    var middle := Feed(Idle(0, 0), noise + Encode(p)).parser;
    FeedAppend(Idle(0, 0), noise + Encode(p), Encode(q));
    FeedGoodFrame(q, middle.bytesToReceive);
  }

  /** An idle framer takes no notice of bytes that are not the first mark. */
  lemma {:induction false} IdleSkips(left: nat, crc: byte, k: nat, bytes: seq<byte>)
    requires FIRST_BYTE !in bytes
    ensures Feed(Idle(left, crc), bytes) == Fed(Idle(left, crc), [])
    ensures Mismatches(Idle(left, crc), k, bytes) == k
    decreases |bytes|
  {
    if bytes != [] {
      assert bytes[0] in bytes && forall b :: b in bytes[1..] ==> b in bytes;
      IdleSkips(left, crc, k, bytes[1..]);
    }
  }

  lemma {:induction false} MismatchesAppend(s: Parser, k: nat, a: seq<byte>, b: seq<byte>)
    requires Coherent(s)
    ensures Mismatches(s, k, a + b) == Mismatches(Feed(s, a).parser, Mismatches(s, k, a), b)
    decreases |a|
  {
    hide Step, MismatchesAfter;
    if a == [] {
      assert a + b == b;
    } else {
      assert (a + b)[0] == a[0] && (a + b)[1..] == a[1..] + b;
      MismatchesAppend(Step(s, a[0]).parser, MismatchesAfter(s, k, a[0]), a[1..], b);
    }
  }

  /** From a half mark a frame's own first byte is a mismatch, and its second is skipped. */
  lemma HalfMarkSwallows(left: nat, crc: byte, k: nat, rest: seq<byte>)
    ensures var s := Parser(SecondByte, [FIRST_BYTE], left, crc);
            && Feed(s, [FIRST_BYTE, SECOND_BYTE] + rest) == Feed(Idle(left, crc), rest)
            && Mismatches(s, k, [FIRST_BYTE, SECOND_BYTE] + rest) == Mismatches(Idle(left, crc), k + 1, rest)
  {
    var s := Parser(SecondByte, [FIRST_BYTE], left, crc);
    var bytes := [FIRST_BYTE, SECOND_BYTE] + rest;
    assert bytes[1..] == [SECOND_BYTE] + rest && bytes[1..][1..] == rest;
    assert Step(s, FIRST_BYTE) == Fed(Idle(left, crc), []);
    assert Step(Idle(left, crc), SECOND_BYTE) == Fed(Idle(left, crc), []);
    assert Feed(Idle(left, crc), bytes[1..]) == Feed(Idle(left, crc), rest);
  }

  /**
   * A good frame after noise that ends in a lone first mark is swallowed: the framer takes its first byte for a wrong
   * second one. What follows is read as noise, and unless it holds another first mark nothing is delivered and the
   * framer is idle, with one more mismatch for the next frame's checksum.
   */
  lemma FrameAfterHalfMark(noise: seq<byte>, p: Packet)
    requires Feed(Idle(0, 0), noise).parser.mode == SecondByte
    ensures var before, after := Feed(Idle(0, 0), noise), Feed(Idle(0, 0), noise + Encode(p));
            var left, crc := before.parser.bytesToReceive, before.parser.crc;
            var rest := Encode(p)[2..];
            && after.delivered == before.delivered + Feed(Idle(left, crc), rest).delivered
            && after.parser == Feed(Idle(left, crc), rest).parser
            && (FIRST_BYTE !in rest ==>
                  && after == Fed(Idle(left, crc), before.delivered)
                  && Mismatches(Idle(0, 0), 0, noise + Encode(p)) == Mismatches(Idle(0, 0), 0, noise) + 1)
  {
    hide Feed, Step, Mismatches, Checksum;
    var s, k, rest := Feed(Idle(0, 0), noise).parser, Mismatches(Idle(0, 0), 0, noise), Encode(p)[2..];
    assert Encode(p) == [FIRST_BYTE, SECOND_BYTE] + rest;
    assert s == Parser(SecondByte, [FIRST_BYTE], s.bytesToReceive, s.crc);
    FeedAppend(Idle(0, 0), noise, Encode(p));
    MismatchesAppend(Idle(0, 0), 0, noise, Encode(p));
    HalfMarkSwallows(s.bytesToReceive, s.crc, k, rest);
    if FIRST_BYTE !in rest {
      IdleSkips(s.bytesToReceive, s.crc, k + 1, rest);
    }
  }

  /** Two noise bytes are enough to make the first good frame fail its checksum. */
  lemma NoiseSpoilsFrame(p: Packet)
    requires Sendable(p)
    ensures exists crc: byte ::
              && crc != PacketCrc(Encode(p))
              && Feed(Idle(0, 0), [FIRST_BYTE, 0x00] + Encode(p)).delivered == [Delivery(Encode(p), crc)]
  {
    var noise := [FIRST_BYTE, 0x00];
    var one := Step(Idle(0, 0), FIRST_BYTE).parser;
    FeedOne(one, 0x00);
    assert noise[1..] == [0x00] && [0x00][1..] == [];
    assert Mismatches(one, 0, [0x00]) == 1;
    assert Mismatches(Idle(0, 0), 0, noise) == 1;
    assert Feed(Idle(0, 0), noise).delivered == [];
    hide Encode, Mismatches, Feed;
    FrameAfterNoise(noise, p);
  }

  // ---- The class ----

  /** The framer as it runs: it copies header and payload bytes in bulk. */
  class ReceiveStateMachine {
    var state: Mode
    var storage: seq<byte>
    var bytesToReceive: nat
    var crc: byte

    ghost function Model(): Parser
      reads this
    {
      Parser(state, storage, bytesToReceive, crc)
    }

    ghost predicate Valid()
      reads this
    {
      Coherent(Model())
    }

    constructor ()
      ensures Valid() && Model() == Idle(0, 0)
    {
      state, storage, bytesToReceive, crc := FirstByte, [], 0, 0;
    }

    method Reset()
      modifies this
      ensures Valid() && Model() == Idle(old(bytesToReceive), 0)
    {
      storage := [];
      state := FirstByte;
      crc := 0;
    }

    /** Appends the first `count` bytes of the buffer to the storage. */
    method CopyBytes(buffer: seq<byte>, count: nat)
      requires count <= |buffer|
      modifies this
      ensures Model() == StoreAll(old(Model()), buffer[..count])
    {
      hide Accumulate;
      var i := 0;
      AccumulateOne(crc, 0);
      assert storage + buffer[..0] == storage;
      while i < count
        invariant i <= count
        invariant Model() == StoreAll(old(Model()), buffer[..i])
      {
        StoreAllAppend(old(Model()), buffer[..i], [buffer[i]]);
        AccumulateOne(crc, buffer[i]);
        assert buffer[..i + 1] == buffer[..i] + [buffer[i]];
        storage := storage + [buffer[i]];
        crc := (crc + buffer[i]) % 0x100;
        i := i + 1;
      }
    }

    /** The header case: copies at most what is missing of the ten bytes, then judges the length field. */
    method AdvanceHeader(buffer: seq<byte>) returns (bytesToAdvance: nat)
      requires Valid() && buffer != [] && state == Header
      modifies this
      ensures Valid()
      ensures 1 <= bytesToAdvance <= |buffer|
      ensures Fed(Model(), []) == Feed(old(Model()), buffer[..bytesToAdvance])
    {
      ghost var before := Model();
      var numNeeded: nat := 10 - |storage|;
      var canCopy := if numNeeded < |buffer| then numNeeded else |buffer|;
      bytesToAdvance := canCopy;
      BulkCopy(before, buffer[..canCopy]);
      CopyBytes(buffer, canCopy);
      if canCopy == numNeeded {
        var packetLength := Uint16(storage[2], storage[3]);
        if packetLength < 11 || packetLength > 1024 {
          storage := [];
          crc := 0;
          state := FirstByte;
          return;
        }
        var payloadSize := packetLength - 11;
        if payloadSize > 0 {
          bytesToReceive := payloadSize;
          state := Payload;
        } else {
          state := Crc;
        }
      }
    }

    /** The payload case: copies at most what is missing of the payload. */
    method AdvancePayload(buffer: seq<byte>) returns (bytesToAdvance: nat)
      requires Valid() && buffer != [] && state == Payload
      modifies this
      ensures Valid()
      ensures 1 <= bytesToAdvance <= |buffer|
      ensures Fed(Model(), []) == Feed(old(Model()), buffer[..bytesToAdvance])
    {
      ghost var before := Model();
      var numNeeded: nat := bytesToReceive - (|storage| - 10);
      var canCopy := if numNeeded < |buffer| then numNeeded else |buffer|;
      bytesToAdvance := canCopy;
      BulkCopy(before, buffer[..canCopy]);
      CopyBytes(buffer, canCopy);
      if canCopy == numNeeded {
        state := Crc;
      }
    }

    /** One pass of the switch; it always consumes at least one byte and never more than there are. */
    method Advance(buffer: seq<byte>) returns (bytesToAdvance: nat, delivered: seq<Delivery>)
      requires Valid() && buffer != []
      modifies this
      ensures Valid()
      ensures 1 <= bytesToAdvance <= |buffer|
      ensures Fed(Model(), delivered) == Feed(old(Model()), buffer[..bytesToAdvance])
    {
      bytesToAdvance, delivered := 1, [];
      FeedOne(Model(), buffer[0]);
      assert buffer[..1] == [buffer[0]];
      match state {
        case FirstByte =>
          if buffer[0] == FIRST_BYTE {
            storage := storage + [buffer[0]];
            state := SecondByte;
            crc := (crc + 0x44) % 0x100;
          }
        case SecondByte =>
          if buffer[0] == SECOND_BYTE {
            storage := storage + [buffer[0]];
            state := Header;
            crc := (crc + 0x4B) % 0x100;
          } else {
            storage := [];
            state := FirstByte;
          }
        case Header =>
          bytesToAdvance := AdvanceHeader(buffer);
        case Payload =>
          bytesToAdvance := AdvancePayload(buffer);
        case Crc =>
          state := FirstByte;
          storage := storage + [buffer[0]];
          delivered := [Delivery(storage, crc)];
          storage := [];
          crc := 0;
      }
    }

    /** Delivers what the one-byte automaton delivers and ends in its state, for any buffer. */
    method HandleBytes(buffer: seq<byte>) returns (delivered: seq<Delivery>)
      requires Valid()
      modifies this
      ensures Valid()
      ensures Fed(Model(), delivered) == Feed(old(Model()), buffer)
    {
      delivered := [];
      var rest := buffer;
      ghost var done := 0;
      assert buffer[..0] == [];
      while rest != []
        invariant done <= |buffer| && rest == buffer[done..]
        invariant Valid()
        invariant Fed(Model(), delivered) == Feed(old(Model()), buffer[..done])
        decreases |rest|
      {
        ghost var here := Model();
        var bytesToAdvance, more := Advance(rest);
        FeedAppend(old(Model()), buffer[..done], rest[..bytesToAdvance]);
        assert buffer[..done + bytesToAdvance] == buffer[..done] + rest[..bytesToAdvance];
        delivered := delivered + more;
        rest := rest[bytesToAdvance..];
        done := done + bytesToAdvance;
      }
      assert buffer[..done] == buffer;
    }
  }
}
