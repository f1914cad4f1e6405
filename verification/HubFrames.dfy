/** The hub's frames as bytes: what the daemon makes of them when they arrive whole, in pieces, or damaged. */
module HubFrames {
  import opened Bytes
  import opened Framer
  import opened Frames
  import opened Protocol

  /** A frame from the hub: it has the hub's address, and the number of the frame it answers. */
  datatype Answer = Answer(source: byte, reference: byte, typeId: uint16, payload: seq<byte>)

  predicate Framable(a: Answer) {
    |a.payload| <= MAX_FRAME - MIN_FRAME
  }

  function AnswerHead(a: Answer): (head: seq<byte>)
    ensures |head| == HEADER_SIZE
  {
    var size := MIN_FRAME + |a.payload|;
    [FIRST_BYTE, SECOND_BYTE, LowByte(size), HighByte(size), 0, a.source, 0, a.reference,
     LowByte(a.typeId), HighByte(a.typeId)]
  }

  function AnswerFrame(a: Answer): seq<byte> {
    AnswerHead(a) + a.payload + [Checksum(AnswerHead(a) + a.payload)]
  }

  function AnswerBytes(answers: seq<Answer>): seq<byte> {
    if answers == [] then [] else AnswerBytes(answers[..|answers| - 1]) + AnswerFrame(answers[|answers| - 1])
  }

  function AnswerDeliveries(answers: seq<Answer>): (ds: seq<Delivery>)
    ensures |ds| == |answers|
  {
    seq(|answers|, i requires 0 <= i < |answers| => Delivery(AnswerFrame(answers[i]), PacketCrc(AnswerFrame(answers[i]))))
  }

  /**
   * What the hub meant: 0x7F02 refuses, the reply to a request has its type with the top bit set, and 0x7F01 is an
   * acknowledgement, which ends the handshake when it refers to the frame with number 1.
   */
  function EventOf(a: Answer): Event {
    match a.typeId
    case 0x7F02 => Nack(a.reference, a.payload)
    case 0xFF0F => DiscoverReply(a.source, a.payload)
    case 0xFF07 => InterfaceReply(a.payload)
    case 0x7F01 => if a.reference == 1 then FtdiAck else Reply(a.reference, a.payload)
    case _ => Reply(a.reference, a.payload)
  }

  lemma AnswerHeadIsGood(a: Answer)
    requires Framable(a)
    ensures HeaderDone(AnswerHead(a)) && LengthField(AnswerHead(a)) == MIN_FRAME + |a.payload|
  {
    LittleEndianRoundTrip(MIN_FRAME + |a.payload|);
  }

  /** A good frame parses to what the hub meant by it; one with any other checksum parses as corrupt. */
  lemma AnswerParses(a: Answer, crc: byte)
    requires Framable(a)
    ensures Parse(AnswerFrame(a), crc) == if crc == PacketCrc(AnswerFrame(a)) then EventOf(a) else Corrupt
  {
    var frame := AnswerFrame(a);
    LittleEndianRoundTrip(a.typeId);
    assert frame[HEADER_SIZE..|frame| - 1] == a.payload;
  }

  lemma AnswerIsDelivered(a: Answer, left: nat)
    requires Framable(a)
    ensures Feed(Idle(left, 0), AnswerFrame(a)) ==
            Fed(Idle(if a.payload == [] then left else |a.payload|, 0),
                [Delivery(AnswerFrame(a), PacketCrc(AnswerFrame(a)))])
  {
    hide Feed, HeaderDone, LengthField, Sum, AnswerHead;
    AnswerHeadIsGood(a);
    FeedParts(left, 0, AnswerHead(a), a.payload, Checksum(AnswerHead(a) + a.payload));
  }

  lemma {:induction false} AnswersAreDelivered(answers: seq<Answer>, left: nat)
    requires forall a | a in answers :: Framable(a)
    ensures Feed(Idle(left, 0), AnswerBytes(answers)).delivered == AnswerDeliveries(answers)
    ensures Feed(Idle(left, 0), AnswerBytes(answers)).parser.(bytesToReceive := left) == Idle(left, 0)
  {
    hide Feed, AnswerFrame;
    if answers == [] {
      FeedNothing(Idle(left, 0));
    } else {
      var front, a := answers[..|answers| - 1], answers[|answers| - 1];
      AnswersAreDelivered(front, left);
      FeedAppend(Idle(left, 0), AnswerBytes(front), AnswerFrame(a));
      var middle := Feed(Idle(left, 0), AnswerBytes(front)).parser;
      assert middle == Idle(middle.bytesToReceive, 0);
      AnswerIsDelivered(a, middle.bytesToReceive);
    }
  }

  /** Whatever the hub answers reaches the handler as that, in order, however the bytes are cut into reads. */
  lemma AnswersReachHandler(answers: seq<Answer>, left: nat, chunks: seq<seq<byte>>, i: nat)
    requires forall a | a in answers :: Framable(a)
    requires Joined(chunks) == AnswerBytes(answers) && i < |answers|
    ensures var ds := FeedChunks(Idle(left, 0), chunks).delivered;
            && |ds| == |answers|
            && |ds[i].data| >= MIN_FRAME
            && Parse(ds[i].data, ds[i].crc) == EventOf(answers[i])
  {
    hide Feed, FeedChunks, AnswerFrame, AnswerBytes, Parse, EventOf;
    ChunkingIndependence(Idle(left, 0), chunks);
    AnswersAreDelivered(answers, left);
    AnswerIsLong(answers[i]);
    AnswerParses(answers[i], PacketCrc(AnswerFrame(answers[i])));
  }

  lemma AnswerIsLong(a: Answer)
    ensures |AnswerFrame(a)| >= MIN_FRAME
  {
  }

  // ---- Damage ----

  /** The frame of an answer with one byte changed on the way. */
  function Damaged(a: Answer, k: nat, b: byte): (frame: seq<byte>)
    requires k < |AnswerFrame(a)|
  {
    AnswerFrame(a)[k := b]
  }

  lemma {:induction false} SumUpdate(s: seq<byte>, k: nat, b: byte)
    requires k < |s|
    ensures Sum(s[k := b]) == Sum(s) - s[k] + b
  {
    var t := s[k := b];
    if k < |s| - 1 {
      assert t[..|s| - 1] == s[..|s| - 1][k := b];
      SumUpdate(s[..|s| - 1], k, b);
    } else {
      assert t[..|s| - 1] == s[..|s| - 1];
    }
  }

  /** The frame cut after its header and before its checksum, which is wrong. */
  lemma BadChecksumIsCaught(frame: seq<byte>, left: nat)
    requires |frame| >= MIN_FRAME && HeaderDone(frame[..HEADER_SIZE]) && LengthField(frame[..HEADER_SIZE]) == |frame|
    requires Checksum(frame[..|frame| - 1]) != frame[|frame| - 1]
    ensures exists d: Delivery ::
              && Feed(Idle(left, 0), frame).delivered == [d]
              && |d.data| >= MIN_FRAME && Parse(d.data, d.crc) == Corrupt
  {
    hide Feed, HeaderDone, LengthField, Sum;
    var head, data, last := frame[..HEADER_SIZE], frame[HEADER_SIZE..|frame| - 1], frame[|frame| - 1];
    assert head + data == frame[..|frame| - 1] && frame == head + data + [last];
    FeedParts(left, 0, head, data, last);
    var d := Delivery(frame, Accumulate(0, head + data));
    assert Parse(d.data, d.crc) == Corrupt;
  }

  lemma ChecksumMoves(s: seq<byte>, k: nat, b: byte)
    requires k < |s| && b != s[k]
    ensures Checksum(s[k := b]) != Checksum(s)
  {
    hide Sum;
    SumUpdate(s, k, b);
  }

  /**
   * One changed byte after the length, be it in the addresses, the numbers, the payload or the checksum itself, never
   * changes the framing and is always caught: the frame is delivered and parses as corrupt.
   */
  lemma DamageIsCaught(a: Answer, k: nat, b: byte, left: nat)
    requires Framable(a) && 4 <= k < |AnswerFrame(a)| && b != AnswerFrame(a)[k]
    ensures exists d: Delivery ::
              && Feed(Idle(left, 0), Damaged(a, k, b)).delivered == [d]
              && |d.data| >= MIN_FRAME && Parse(d.data, d.crc) == Corrupt
  {
    hide Feed, Checksum, Parse;
    var good, frame := AnswerFrame(a), Damaged(a, k, b);
    var n := |frame| - 1;
    AnswerHeadIsGood(a);
    assert good[..HEADER_SIZE] == AnswerHead(a) && good[..n] == AnswerHead(a) + a.payload;
    HeaderKept(good, frame);
    if k < n {
      ChecksumMoves(good[..n], k, b);
      assert frame[..n] == good[..n][k := b];
    } else {
      assert frame[..n] == good[..n];
    }
    BadChecksumIsCaught(frame, left);
  }

  lemma HeaderKept(good: seq<byte>, frame: seq<byte>)
    requires |frame| == |good| >= HEADER_SIZE && frame[..4] == good[..4] && HeaderDone(good[..HEADER_SIZE])
    ensures HeaderDone(frame[..HEADER_SIZE])
    ensures LengthField(frame[..HEADER_SIZE]) == LengthField(good[..HEADER_SIZE])
  {
    assert forall i | 0 <= i < 4 :: frame[i] == frame[..4][i] && good[i] == good[..4][i];
  }
}
