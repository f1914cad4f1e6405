/** The byte buffer behind the queue of packets: encodings back to back, a list of frame sizes and a write cursor. */
module Buffers {
  import opened Bytes
  import opened Frames

  function Sizes(ps: seq<Packet>): (sizes: seq<nat>)
    ensures |sizes| == |ps|
  {
    seq(|ps|, i requires 0 <= i < |ps| => |Encode(ps[i])|)
  }

  function Total(sizes: seq<nat>): nat {
    if sizes == [] then 0 else Total(sizes[..|sizes| - 1]) + sizes[|sizes| - 1]
  }

  lemma {:induction false} TotalSizes(ps: seq<Packet>)
    ensures Total(Sizes(ps)) == |EncodeAll(ps)|
  {
    hide Encode;
    if ps != [] {
      TotalSizes(ps[..|ps| - 1]);
      assert Sizes(ps)[..|ps| - 1] == Sizes(ps[..|ps| - 1]);
    }
  }

  lemma EncodingIsLong(ps: seq<Packet>)
    ensures ps != [] ==> |EncodeAll(ps)| > 0
    ensures ps == [] ==> EncodeAll(ps) == []
  {
    hide Encode;
  }

  lemma EncodeAllOne(ps: seq<Packet>, p: Packet)
    ensures EncodeAll(ps + [p]) == EncodeAll(ps) + Encode(p)
  {
    hide Encode;
    assert (ps + [p])[..|ps|] == ps;
  }

  /** What one flush puts on the wire: one write of all its frames, or no write at all. */
  function Written(sent: seq<Packet>): seq<seq<byte>> {
    if sent == [] then [] else [EncodeAll(sent)]
  }

  /** Direct frames are written one by one. */
  function WrittenDirect(ps: seq<Packet>): seq<seq<byte>> {
    seq(|ps|, i requires 0 <= i < |ps| => Encode(ps[i]))
  }

  lemma OneDirect(p: Packet)
    ensures WrittenDirect([p]) == [Encode(p)]
  {
    hide Encode;
  }

  lemma NothingDirect(wire: seq<seq<byte>>)
    ensures wire + WrittenDirect([]) == wire && wire + Written([]) == wire
  {
  }

  /**
   * The write buffer against the packets enqueued since the transaction started: the buffer is their encodings, the
   * cursor stands after those already written, and the pending sizes are those of the rest.
   */
  ghost predicate Accounted(enqueued: seq<Packet>, queue: seq<Packet>, writeBuffer: seq<byte>, pendingWrites: seq<nat>,
                            currentCount: nat)
  {
    && |queue| <= |enqueued|
    && var n := |enqueued| - |queue|;
    && queue == enqueued[n..]
    && writeBuffer == EncodeAll(enqueued)
    && currentCount == |EncodeAll(enqueued[..n])|
    && pendingWrites == Sizes(queue)
  }

  lemma Split<T>(s: seq<T>, n: nat, k: nat)
    requires n + k <= |s|
    ensures s == s[..n] + s[n..]
    ensures s[..n + k] == s[..n] + s[n..][..k] && s[n + k..] == s[n..][k..]
    ensures s == s[..n] + s[n..][..k] + s[n..][k..]
  {
  }

  lemma Whole<T>(s: seq<T>)
    ensures s[0..] == s && s[..0] == []
  {
  }

  lemma Snoc<T>(s: seq<T>, x: T, n: nat)
    requires n <= |s|
    ensures (s + [x])[..n] == s[..n] && (s + [x])[n..] == s[n..] + [x]
  {
  }

  lemma SizesOne(ps: seq<Packet>, p: Packet)
    ensures Sizes(ps + [p]) == Sizes(ps) + [|Encode(p)|]
  {
    hide Encode;
  }

  lemma SizesSplit(ps: seq<Packet>, k: nat)
    requires k <= |ps|
    ensures Sizes(ps)[..k] == Sizes(ps[..k]) && Sizes(ps)[k..] == Sizes(ps[k..])
  {
    hide Encode;
  }

  lemma AccountedAfresh()
    ensures Accounted([], [], [], [], 0)
  {
  }

  /** With nothing queued the list of sizes is empty, so the buffer can be cleared without touching it. */
  lemma NothingAccounted(enqueued: seq<Packet>, queue: seq<Packet>, writeBuffer: seq<byte>, pendingWrites: seq<nat>,
                         currentCount: nat)
    requires Accounted(enqueued, queue, writeBuffer, pendingWrites, currentCount) && queue == []
    ensures pendingWrites == [] && currentCount == |writeBuffer|
    ensures Accounted(queue, queue, [], pendingWrites, 0)
  {
    hide EncodeAll;
    AccountedAfresh();
    assert enqueued[..|enqueued|] == enqueued;
  }

  /** No byte of the buffer is unaccounted for: the cursor and the pending sizes add up to it. */
  lemma BufferAccounting(enqueued: seq<Packet>, queue: seq<Packet>, writeBuffer: seq<byte>, pendingWrites: seq<nat>,
                         currentCount: nat)
    requires Accounted(enqueued, queue, writeBuffer, pendingWrites, currentCount)
    ensures currentCount + Total(pendingWrites) == |writeBuffer|
    ensures writeBuffer[currentCount..] == EncodeAll(queue)
  {
    hide EncodeAll, Encode, Total, Sizes;
    var n := |enqueued| - |queue|;
    Split(enqueued, n, 0);
    EncodeAllAppend(enqueued[..n], queue);
    TotalSizes(queue);
  }

  lemma PendingPerPacket(enqueued: seq<Packet>, queue: seq<Packet>, writeBuffer: seq<byte>, pendingWrites: seq<nat>,
                         currentCount: nat)
    requires Accounted(enqueued, queue, writeBuffer, pendingWrites, currentCount)
    ensures |pendingWrites| == |queue|
  {
  }

  lemma PendingEmpty(enqueued: seq<Packet>, queue: seq<Packet>, writeBuffer: seq<byte>, pendingWrites: seq<nat>,
                     currentCount: nat)
    requires Accounted(enqueued, queue, writeBuffer, pendingWrites, currentCount)
    ensures pendingWrites == [] <==> queue == []
  {
  }

  lemma EnqueueAccounted(enqueued: seq<Packet>, queue: seq<Packet>, writeBuffer: seq<byte>, pendingWrites: seq<nat>,
                         currentCount: nat, p: Packet)
    requires Accounted(enqueued, queue, writeBuffer, pendingWrites, currentCount)
    ensures Accounted(enqueued + [p], queue + [p], writeBuffer + Encode(p), pendingWrites + [|Encode(p)|], currentCount)
  {
    hide EncodeAll, Encode, Sizes;
    EncodeAllOne(enqueued, p);
    SizesOne(queue, p);
    Snoc(enqueued, p, |enqueued| - |queue|);
  }

  /** Writing the first k frames: the slice is inside the buffer and holds exactly their encodings. */
  lemma FlushAccounted(enqueued: seq<Packet>, queue: seq<Packet>, writeBuffer: seq<byte>, pendingWrites: seq<nat>,
                       currentCount: nat, k: nat)
    requires Accounted(enqueued, queue, writeBuffer, pendingWrites, currentCount) && k <= |queue|
    ensures var count := Total(pendingWrites[..k]);
            && currentCount + count <= |writeBuffer|
            && writeBuffer[currentCount..currentCount + count] == EncodeAll(queue[..k])
            && Accounted(enqueued, queue[k..], writeBuffer, pendingWrites[k..], currentCount + count)
            && (count == 0 <==> k == 0)
  {
    hide EncodeAll, Encode, Total, Sizes;
    var n := |enqueued| - |queue|;
    Split(enqueued, n, k);
    var a, b, c := enqueued[..n], queue[..k], queue[k..];
    EncodeAllAppend(a, b);
    EncodeAllAppend(a + b, c);
    SizesSplit(queue, k);
    TotalSizes(b);
    EncodingIsLong(b);
    SliceOfSum(EncodeAll(a), EncodeAll(b), EncodeAll(c));
  }

  lemma SliceOfSum<T>(a: seq<T>, b: seq<T>, c: seq<T>)
    ensures (a + b + c)[|a|..|a| + |b|] == b
  {
  }

  /** A uint8_t sum over the bytes of a buffer. */
  method CalcChecksum(buffer: seq<byte>) returns (sum: byte)
    ensures sum == Checksum(buffer)
  {
    sum := 0;
    for i := 0 to |buffer|
      invariant sum == Checksum(buffer[..i])
    {
      assert buffer[..i + 1][..i] == buffer[..i];
      AddModulo(Sum(buffer[..i]), buffer[i]);
      sum := (sum + buffer[i]) % 0x100;
    }
    assert buffer[..|buffer|] == buffer;
  }

  /** Stores a value low byte first. */
  method WriteUint16(buffer: array<byte>, at: nat, value: uint16)
    requires at + 1 < buffer.Length
    modifies buffer
    ensures buffer[..] == old(buffer[..])[at := LowByte(value)][at + 1 := HighByte(value)]
    ensures ReadUint16(buffer[at..at + 2]) == value
  {
    buffer[at] := LowByte(value);
    buffer[at + 1] := HighByte(value);
    LittleEndianRoundTrip(value);
    assert buffer[at..at + 2] == [LowByte(value), HighByte(value)];
  }

  /** The ten header bytes of a frame, in place. */
  method WriteHeader(txBuffer: array<byte>, p: Packet)
    requires txBuffer.Length == MAX_FRAME && Sendable(p)
    modifies txBuffer
    ensures txBuffer[..HEADER_SIZE] == Body(p)[..HEADER_SIZE]
  {
    var bytesToSend := 10 + |p.payload| + 1;
    txBuffer[0] := 0x44;
    txBuffer[1] := 0x4B;
    WriteUint16(txBuffer, 2, bytesToSend);
    assert txBuffer[..4] == [FIRST_BYTE, SECOND_BYTE, LowByte(bytesToSend), HighByte(bytesToSend)];
    txBuffer[4] := p.dest;
    txBuffer[5] := 0x00;
    txBuffer[6] := p.number;
    txBuffer[7] := 0x00;
    label fields:
    WriteUint16(txBuffer, 8, p.typeId);
    assert forall i :: 0 <= i < 8 ==> txBuffer[..][i] == old@fields(txBuffer[..])[i];
  }

  method CopyPayload(txBuffer: array<byte>, payload: seq<byte>)
    requires txBuffer.Length == MAX_FRAME && |payload| < MAX_FRAME - MIN_FRAME
    modifies txBuffer
    ensures txBuffer[..HEADER_SIZE] == old(txBuffer[..HEADER_SIZE])
    ensures txBuffer[HEADER_SIZE..HEADER_SIZE + |payload|] == payload
  {
    for i := 0 to |payload|
      invariant txBuffer[..HEADER_SIZE] == old(txBuffer[..HEADER_SIZE])
      invariant txBuffer[HEADER_SIZE..HEADER_SIZE + i] == payload[..i]
    {
      txBuffer[HEADER_SIZE + i] := payload[i];
    }
  }

  lemma BodyParts(p: Packet)
    ensures Body(p) == Body(p)[..HEADER_SIZE] + p.payload
  {
    hide Sum, Checksum;
  }

  /** Lays the frame of a packet out at the start of the transmit buffer. */
  method BuildFrame(txBuffer: array<byte>, p: Packet) returns (bytesToSend: nat)
    requires txBuffer.Length == MAX_FRAME && Sendable(p)
    modifies txBuffer
    ensures bytesToSend <= txBuffer.Length
    ensures txBuffer[..bytesToSend] == Encode(p)
  {
    bytesToSend := HEADER_SIZE + |p.payload| + 1;
    WriteHeader(txBuffer, p);
    CopyPayload(txBuffer, p.payload);
    BodyParts(p);
    var body := txBuffer[..HEADER_SIZE + |p.payload|];
    assert body == txBuffer[..HEADER_SIZE] + txBuffer[HEADER_SIZE..HEADER_SIZE + |p.payload|];
    hide Body;
    var checksum := CalcChecksum(body);
    txBuffer[HEADER_SIZE + |p.payload|] := checksum;
    assert txBuffer[..bytesToSend] == body + [checksum];
  }
}
