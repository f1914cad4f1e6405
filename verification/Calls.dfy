/** What the calls of the daemon do to one link's traffic and to the store, step by step as its methods take them. */
module Calls {
  import opened Buffers
  import opened Bytes
  import opened Framer
  import opened Frames
  import opened Messages
  import opened Phases
  import opened Protocol
  import opened Stores
  import opened Wrappers

  /** The link and the store together: what handling a frame works on. */
  datatype Both = Both(traffic: Traffic, store: Store)

  /** The batch goes out in the middle of a reply. */
  function Fired(b: Both, io: Samples): Both
    requires b.traffic.link.address.Some? && b.traffic.link.interfaceId.Some?
  {
    var l := b.traffic.link;
    var z := Sent(b.traffic, CommandPackets(b.store, io, l.canEnable, l.deviceReset, TargetOf(l)));
    Both(z.(link := z.link.(sendState := WaitingForFinish)), CommandStore(b.store, io, l.canEnable, l.deviceReset))
  }

  lemma FiredOutcome(b: Both, io: Samples)
    requires b.traffic.link.address.Some? && b.traffic.link.interfaceId.Some?
    ensures var o := IssueCommands(b.traffic.link, b.store, io);
            Fired(b, io) == Both(After(b.traffic, o), o.store)
  {
    hide CommandPackets, CommandStore, Protocol.Flush;
    var l := b.traffic.link;
    var (l', sent) := Protocol.Flush(Enqueue(l, CommandPackets(b.store, io, l.canEnable, l.deviceReset, TargetOf(l))));
    NothingDirect(b.traffic.wire + Written(sent));
  }

  lemma AdvanceCases(b: Both, io: Samples)
    requires Ordered(b.traffic.link)
    ensures var l := Answered(b.traffic.link);
            var a := b.(traffic := b.traffic.(link := l));
            var z := if Fires(l) then Fired(a, io) else a;
            && Ordered(l)
            && Advanced(b, io) == z.(traffic := z.traffic.(link := Finish(z.traffic.link)))
  {
    hide Fired, IssueCommands, Written, WrittenDirect;
    var l := Answered(b.traffic.link);
    NothingDirect(b.traffic.wire);
    assert b.traffic.enqueued + [] == b.traffic.enqueued;
    if Fires(l) {
      FiredOutcome(b.(traffic := b.traffic.(link := l)), io);
    }
  }

  function Advanced(b: Both, io: Samples): Both
    requires Ordered(b.traffic.link)
  {
    var o := Advance(b.traffic.link, b.store, io);
    Both(After(b.traffic, o), o.store)
  }

  function CrcCounted(b: Both): Both {
    b.(store := b.store.(numCrcFailures := b.store.numCrcFailures + 1))
  }

  function NackCounted(b: Both): Both {
    b.(store := b.store.(numNacks := b.store.numNacks + 1))
  }

  /** One received frame. */
  function Handled(b: Both, e: Event, io: Samples, now: uint64): Both
    requires Ordered(b.traffic.link) && Readable(b.traffic.link, e)
  {
    var o := Handle(b.traffic.link, b.store, e, io, now);
    Both(After(b.traffic, o), o.store)
  }

  lemma CountingEvent(b: Both, e: Event, io: Samples, now: uint64)
    requires Ordered(b.traffic.link) && Readable(b.traffic.link, e) && Counts(b.traffic.link, e)
    ensures var b' := Both(b.traffic.(link := Noted(b.traffic.link, e)), Recorded(b.store, e, io));
            Ordered(b'.traffic.link) && Handled(b, e, io, now) == Advanced(b', io)
    ensures !e.Reply? ==> Noted(b.traffic.link, e) == b.traffic.link
  {
    hide Advance, Recorded;
  }

  lemma GreetingEvent(b: Both, e: Event, io: Samples, now: uint64)
    requires Ordered(b.traffic.link) && Readable(b.traffic.link, e) && !Counts(b.traffic.link, e)
    ensures var v, (l, direct) := b.traffic, Greet(b.traffic.link, e, now);
            Handled(b, e, io, now) ==
            Both(v.(link := l, wire := v.wire + WrittenDirect(direct)), Recorded(b.store, e, io))
  {
    hide Greet, Recorded, WrittenDirect;
    NothingDirect(b.traffic.wire);
    assert b.traffic.enqueued + [] == b.traffic.enqueued;
  }

  /** The refusal counter does not enter the batch, so counting before or after makes no difference. */
  lemma NacksCommute(b: Both, io: Samples)
    requires Ordered(b.traffic.link)
    ensures Advanced(NackCounted(b), io) == NackCounted(Advanced(b, io))
  {
    hide IssueCommands;
    var st, st' := b.store, NackCounted(b).store;
    var l := Answered(b.traffic.link);
    if Fires(l) {
      IssueIgnoresNacks(l, st, st', io);
    }
  }

  lemma IssueIgnoresNacks(l: Link, st: Store, st': Store, io: Samples)
    requires l.address.Some? && l.interfaceId.Some? && st' == st.(numNacks := st'.numNacks)
    ensures var o, o' := IssueCommands(l, st, io), IssueCommands(l, st', io);
            o.store.numNacks == st.numNacks && o' == o.(store := o.store.(numNacks := st'.numNacks))
  {
    hide CommandPackets, CommandStore, Protocol.Flush;
    BatchIgnoresCounters(st, st, io, l.canEnable, l.deviceReset, TargetOf(l));
    BatchIgnoresCounters(st, st', io, l.canEnable, l.deviceReset, TargetOf(l));
  }

  lemma CorruptEvent(b: Both, io: Samples, now: uint64)
    requires Ordered(b.traffic.link)
    ensures Handled(b, Corrupt, io, now) ==
            if b.traffic.link.interfaceId.Some? then Advanced(CrcCounted(b), io) else CrcCounted(b)
  {
    hide Advanced, Handled;
    NothingDirect(b.traffic.wire);
    if b.traffic.link.interfaceId.Some? {
      CountingEvent(b, Corrupt, io, now);
    } else {
      GreetingEvent(b, Corrupt, io, now);
    }
  }

  lemma NackEvent(b: Both, reference: byte, payload: seq<byte>, io: Samples, now: uint64)
    requires Ordered(b.traffic.link) && |payload| >= 1
    ensures Handled(b, Nack(reference, payload), io, now) ==
            NackCounted(if reference != MESSAGE_DISCOVER && reference != MESSAGE_QUERY_INTERFACE then Advanced(b, io) else b)
  {
    hide Advanced, Handled;
    NothingDirect(b.traffic.wire);
    if Counts(b.traffic.link, Nack(reference, payload)) {
      CountingEvent(b, Nack(reference, payload), io, now);
      NacksCommute(b, io);
    } else {
      GreetingEvent(b, Nack(reference, payload), io, now);
    }
  }

  function Synchronized(b: Both, now: uint64): Both
  {
    var (l, direct) := Synchronize(b.traffic.link, now);
    b.(traffic := b.traffic.(link := l, wire := b.traffic.wire + WrittenDirect(direct)))
  }

  function AddressLearned(b: Both, source: byte): Both {
    b.(traffic := b.traffic.(link := b.traffic.link.(address := Some(source), discoverStart := 0)))
  }

  function InterfaceLearned(b: Both, id: uint16): Both {
    b.(traffic := b.traffic.(link := b.traffic.link.(interfaceId := Some(id), discoverStart := 0)))
  }

  function FtdiLearned(b: Both): Both {
    b.(traffic := b.traffic.(link := b.traffic.link.(ftdiDone := true, discoverStart := 0)))
  }

  lemma DiscoverEvent(b: Both, source: byte, payload: seq<byte>, io: Samples, now: uint64)
    requires Ordered(b.traffic.link) && Readable(b.traffic.link, DiscoverReply(source, payload))
    ensures b.traffic.link.address.None? ==> Ordered(AddressLearned(b, source).traffic.link)
    ensures Handled(b, DiscoverReply(source, payload), io, now) ==
            if b.traffic.link.address.None? && payload[0] == 1 then Synchronized(AddressLearned(b, source), now) else b
  {
    hide Handled, Synchronize;
    GreetingEvent(b, DiscoverReply(source, payload), io, now);
    NothingDirect(b.traffic.wire);
  }

  lemma InterfaceEvent(b: Both, payload: seq<byte>, io: Samples, now: uint64)
    requires Ordered(b.traffic.link) && Readable(b.traffic.link, InterfaceReply(payload))
    ensures b.traffic.link.interfaceId.None? ==>
              |payload| >= 2 && Ordered(InterfaceLearned(b, ReadUint16(payload)).traffic.link)
    ensures Handled(b, InterfaceReply(payload), io, now) ==
            if b.traffic.link.interfaceId.None? then Synchronized(InterfaceLearned(b, ReadUint16(payload)), now) else b
  {
    hide Handled, Synchronize;
    GreetingEvent(b, InterfaceReply(payload), io, now);
    NothingDirect(b.traffic.wire);
  }

  lemma FtdiEvent(b: Both, io: Samples, now: uint64)
    requires Ordered(b.traffic.link) && Readable(b.traffic.link, FtdiAck)
    ensures Ordered(FtdiLearned(b).traffic.link)
    ensures Handled(b, FtdiAck, io, now) == Synchronized(FtdiLearned(b), now)
  {
    hide Handled, Synchronize;
    GreetingEvent(b, FtdiAck, io, now);
  }

  function FlagsNoted(b: Both, reference: byte, payload: seq<byte>): Both
    requires Readable(b.traffic.link, Reply(reference, payload))
  {
    b.(traffic := b.traffic.(link := NoteReply(b.traffic.link, reference, payload)))
  }

  function ReplyRecorded(b: Both, reference: byte, payload: seq<byte>, io: Samples): Both
    requires Readable(NEW_LINK, Reply(reference, payload))
  {
    b.(store := RecordReply(b.store, reference, payload, io))
  }

  lemma ReplyEvent(b: Both, reference: byte, payload: seq<byte>, io: Samples, now: uint64)
    requires Ordered(b.traffic.link) && Readable(b.traffic.link, Reply(reference, payload))
    ensures Readable(NEW_LINK, Reply(reference, payload))
    ensures var b' := ReplyRecorded(FlagsNoted(b, reference, payload), reference, payload, io);
            && Ordered(FlagsNoted(b, reference, payload).traffic.link) && Ordered(b'.traffic.link)
            && Handled(b, Reply(reference, payload), io, now) == Advanced(b', io)
  {
    hide Handled, Advanced, RecordReply, NoteReply;
    CountingEvent(b, Reply(reference, payload), io, now);
  }

  lemma HandledIsOrdered(b: Both, e: Event, io: Samples, now: uint64)
    requires Ordered(b.traffic.link) && Readable(b.traffic.link, e)
    ensures Ordered(Handled(b, e, io, now).traffic.link)
  {
    HandleExtends(b.traffic.link, b.store, e, io, now);
  }

  /** What the subscribers and the clock say while a frame is handled. */
  datatype Moment = Moment(io: Samples, now: uint64)

  /** Every delivery of a read is one the link can take when its turn comes. */
  predicate AllReadable(b: Both, ds: seq<Delivery>, ms: seq<Moment>)
    requires Ordered(b.traffic.link) && |ms| == |ds|
    decreases |ds|, 0
  {
    ds != [] ==>
      var n := |ds| - 1;
      && AllReadable(b, ds[..n], ms[..n])
      && |ds[n].data| >= MIN_FRAME
      && Readable(HandledAll(b, ds[..n], ms[..n]).traffic.link, Parse(ds[n].data, ds[n].crc))
  }

  function HandledAll(b: Both, ds: seq<Delivery>, ms: seq<Moment>): (r: Both)
    requires Ordered(b.traffic.link) && |ms| == |ds| && AllReadable(b, ds, ms)
    ensures Ordered(r.traffic.link)
    decreases |ds|, 1
  {
    if ds == [] then b else
    var n := |ds| - 1;
    var before, e := HandledAll(b, ds[..n], ms[..n]), Parse(ds[n].data, ds[n].crc);
    HandledIsOrdered(before, e, ms[n].io, ms[n].now);
    Handled(before, e, ms[n].io, ms[n].now)
  }

  lemma {:induction false} ReadablePrefix(b: Both, ds: seq<Delivery>, ms: seq<Moment>, i: nat)
    requires Ordered(b.traffic.link) && |ms| == |ds| && AllReadable(b, ds, ms) && i <= |ds|
    ensures AllReadable(b, ds[..i], ms[..i])
    decreases |ds|
  {
    hide Ordered, Readable, Handled, Parse;
    if i == |ds| {
      assert ds[..i] == ds && ms[..i] == ms;
    } else {
      var n := |ds| - 1;
      ReadablePrefix(b, ds[..n], ms[..n], i);
      assert ds[..n][..i] == ds[..i] && ms[..n][..i] == ms[..i];
    }
  }

  lemma NextReadable(b: Both, ds: seq<Delivery>, ms: seq<Moment>, i: nat)
    requires Ordered(b.traffic.link) && |ms| == |ds| && AllReadable(b, ds, ms) && i < |ds|
    ensures AllReadable(b, ds[..i], ms[..i]) && AllReadable(b, ds[..i + 1], ms[..i + 1])
    ensures var before := HandledAll(b, ds[..i], ms[..i]);
            && |ds[i].data| >= MIN_FRAME
            && Readable(before.traffic.link, Parse(ds[i].data, ds[i].crc))
            && HandledAll(b, ds[..i + 1], ms[..i + 1]) == Handled(before, Parse(ds[i].data, ds[i].crc), ms[i].io, ms[i].now)
  {
    hide Ordered, Readable, Handled, Parse;
    ReadablePrefix(b, ds, ms, i);
    ReadablePrefix(b, ds, ms, i + 1);
    assert ds[..i + 1][..i] == ds[..i] && ms[..i + 1][..i] == ms[..i];
  }

  function FlushedBoth(b: Both): Both {
    b.(traffic := FlushedTraffic(b.traffic))
  }

  /** The timer tick; a started transaction begins a new record of what was enqueued. */
  function Updated(b: Both, io: Samples, canEnable: bool, now: uint64, lastLoop: uint64): Both
    requires Ordered(b.traffic.link) && TickSafe(b.traffic.link) && (b.traffic.link.sendState == ReadyToSend ==> b.traffic.link.queue == [])
  {
    var u := Protocol.OnUpdate(b.traffic.link, b.store, io, canEnable, now, lastLoop);
    Both(After(if u.started then b.traffic.(enqueued := []) else b.traffic, u.outcome), u.outcome.store)
  }

  function BegunTraffic(v: Traffic, canEnable: bool): Traffic
    requires v.link.sendState == ReadyToSend ==> v.link.queue == []
  {
    var l := if v.link.sendState == ReadyToSend then v.link else Protocol.Recover(v.link);
    Traffic(Protocol.StartTransaction(l, canEnable), [], v.wire)
  }

  function Begun(b: Both, canEnable: bool): Both
    requires b.traffic.link.sendState == ReadyToSend ==> b.traffic.link.queue == []
  {
    b.(traffic := BegunTraffic(b.traffic, canEnable))
  }

  function Opened(b: Both, io: Samples, t: Target): Both {
    Both(Sent(b.traffic, InitialPackets(b.store, io, t)), InitialStore(b.store, io))
  }

  function MissCounted(b: Both): Both {
    b.(store := b.store.(numMissedSendLoops := b.store.numMissedSendLoops + 1))
  }

  function UpdatedLoop(l: Link, now: uint64, lastLoop: uint64): uint64 {
    if Starts(l, now, lastLoop) then now else lastLoop
  }

  lemma UpdateInSteps(b: Both, io: Samples, canEnable: bool, now: uint64, lastLoop: uint64)
    requires Ordered(b.traffic.link) && TickSafe(b.traffic.link) && (b.traffic.link.sendState == ReadyToSend ==> b.traffic.link.queue == [])
    ensures var l, u := b.traffic.link, Protocol.OnUpdate(b.traffic.link, b.store, io, canEnable, now, lastLoop);
            && u.lastLoop == UpdatedLoop(l, now, lastLoop)
            && u.started == Starts(l, now, lastLoop)
            && Updated(b, io, canEnable, now, lastLoop) ==
               if !l.ftdiDone then Synchronized(b, now)
               else if Starts(l, now, lastLoop) then Opened(Begun(b, canEnable), io, TargetOf(l))
               else MissCounted(b)
  {
    hide Synchronize, InitialPackets, InitialStore, Written, Protocol.Flush;
    NothingDirect(b.traffic.wire);
    assert b.traffic.enqueued + [] == b.traffic.enqueued;
    var l := b.traffic.link;
    if Starts(l, now, lastLoop) {
      var begun := Begun(b, canEnable).traffic;
      assert TargetOf(begun.link) == TargetOf(l);
      OpeningTraffic(begun, b.store, io);
    }
  }

  lemma OpeningTraffic(v: Traffic, st: Store, io: Samples)
    requires v.link.address.Some? && v.link.interfaceId.Some?
    ensures After(v, Protocol.SendInitial(v.link, st, io)) == Sent(v, InitialPackets(st, io, TargetOf(v.link)))
  {
    hide InitialPackets, InitialStore, Protocol.Flush;
    var (l, sent) := Protocol.Flush(Enqueue(v.link, InitialPackets(st, io, TargetOf(v.link))));
    NothingDirect(v.wire + Written(sent));
  }

  /** A device just added: a new link that has taken its first handshake step, and a store that holds nothing. */
  function NewTraffic(now: uint64): Traffic {
    var (l, direct) := Synchronize(NEW_LINK, now);
    Traffic(l, [], [] + WrittenDirect(direct))
  }

  function Attached(st: Store, now: uint64): Both {
    Both(NewTraffic(now), Afresh(st))
  }

  lemma FlushByCount(l: Link, toWrite: nat)
    requires toWrite == FlushCount(l.window, |l.queue|)
    ensures Protocol.Flush(l) ==
            (Link(l.address, l.interfaceId, l.ftdiDone, l.discoverStart, l.queue[toWrite..], (l.window + toWrite) % 0x100,
                  l.sendState, l.haveBattery, l.haveBulk, l.haveStatus, l.canEnable, l.deviceReset),
             l.queue[..toWrite])
  {
    hide FlushCount;
  }

  lemma FlushWrites(l: Link, toWrite: nat)
    requires toWrite == FlushCount(l.window, |l.queue|)
    ensures toWrite == 0 ==> Protocol.Flush(l) == (l, []) && Written([]) == []
    ensures toWrite > 0 ==> Written(l.queue[..toWrite]) == [EncodeAll(l.queue[..toWrite])]
  {
    Whole(l.queue);
    assert toWrite <= |l.queue|;
    hide EncodeAll, FlushCount;
  }

  /** What one link has done in the current transaction: its state, the packets enqueued, every write call ever made. */
  datatype Traffic = Traffic(link: Link, enqueued: seq<Packet>, wire: seq<seq<byte>>)

  function Queue(v: Traffic, ps: seq<Packet>): Traffic {
    v.(link := Enqueue(v.link, ps), enqueued := v.enqueued + ps)
  }

  function After(v: Traffic, o: Outcome): Traffic {
    Traffic(o.link, v.enqueued + o.enqueued, v.wire + Written(o.sent) + WrittenDirect(o.direct))
  }

  /** One handshake step: the next request goes out at once, unless one did within the last second. */
  predicate Greeted(v: Traffic, v': Traffic, now: uint64) {
    var (l, direct) := Synchronize(v.link, now);
    v' == v.(link := l, wire := v.wire + WrittenDirect(direct))
  }

  lemma Associative<T>(a: seq<T>, b: seq<T>, c: seq<T>)
    ensures a + b + c == a + (b + c)
  {
  }

  lemma QueueTwice(v: Traffic, a: seq<Packet>, b: seq<Packet>)
    ensures Queue(Queue(v, a), b) == Queue(v, a + b)
  {
    Associative(v.enqueued, a, b);
    Associative(v.link.queue, a, b);
  }

  lemma NothingQueued(v: Traffic)
    ensures Queue(v, []) == v
  {
  }

  lemma PhaseStarts(v: Traffic, xs: seq<seq<Packet>>)
    ensures Queue(v, Flatten(xs[..0])) == v
  {
    NothingQueued(v);
  }

  /** One more channel of a phase. */
  lemma PhaseGrows(v: Traffic, xs: seq<seq<Packet>>, i: nat)
    requires i < |xs|
    ensures Queue(Queue(v, Flatten(xs[..i])), xs[i]) == Queue(v, Flatten(xs[..i + 1]))
    ensures xs[..i + 1] == xs ==> Queue(v, Flatten(xs[..i + 1])) == Queue(v, Flatten(xs))
  {
    assert xs[..i + 1][..i] == xs[..i];
    QueueTwice(v, Flatten(xs[..i]), xs[i]);
  }

  /** Queued and flushed. */
  function Sent(v: Traffic, ps: seq<Packet>): Traffic {
    FlushedTraffic(Queue(v, ps))
  }

  function FlushedTraffic(v: Traffic): Traffic {
    var (l, sent) := Protocol.Flush(v.link);
    v.(link := l, wire := v.wire + Written(sent))
  }

  lemma QueuePair(v: Traffic, p: Packet, q: Packet)
    ensures Queue(Queue(v, [p]), [q]) == Queue(v, [p, q])
  {
    QueueTwice(v, [p], [q]);
    assert [p] + [q] == [p, q];
  }

  /** The phases of the opening batch, queued one after the other. */
  lemma InitialQueued(v: Traffic, st: Store, io: Samples, t: Target)
    ensures var a := Queue(Queue(v, [KeepAlive(t)]), [ModuleStatus(t)]);
            var b := Queue(a, Flatten(ResetPhase(InitialStore(st, io), t)));
            var c := Queue(Queue(b, [BatteryRequest(t)]), [BulkInput(t)]);
            Queue(c, Flatten(PulsePhase(io, t))) == Queue(v, InitialPackets(st, io, t))
  {
    hide Queue;
    var first, resets := [KeepAlive(t), ModuleStatus(t)], Flatten(ResetPhase(InitialStore(st, io), t));
    var second, pulses := [BatteryRequest(t), BulkInput(t)], Flatten(PulsePhase(io, t));
    QueuePair(v, KeepAlive(t), ModuleStatus(t));
    QueueTwice(v, first, resets);
    QueuePair(Queue(v, first + resets), BatteryRequest(t), BulkInput(t));
    QueueTwice(v, first + resets, second);
    QueueTwice(v, first + resets + second, pulses);
  }

  /** The phases of a command batch, queued one after the other from the store they start with. */
  lemma CommandsQueued(v: Traffic, st: Store, io: Samples, canEnable: bool, t: Target)
    ensures var s1 := ModesAttempted(st, io, NUM_MOTORS);
            var s2 := EnablesAttempted(s1, io, canEnable, NUM_MOTORS);
            var s3 := PeriodsAttempted(s2, io, NUM_SERVOS);
            var a := Queue(Queue(v, Flatten(PowerPhase(io, st.lastBattery, t))), Flatten(CurrentPhase(t)));
            var b := Queue(Queue(a, Flatten(ModePhase(st, io, t))), Flatten(EnablePhase(s1, io, canEnable, t)));
            var c := Queue(Queue(b, Flatten(PeriodPhase(s2, io, t))), Flatten(ServoOnPhase(s3, io, canEnable, t)));
            && c == Queue(v, CommandPackets(st, io, canEnable, false, t))
            && ServoOnsAttempted(s3, io, canEnable, NUM_SERVOS) == CommandStore(st, io, canEnable, false)
  {
    hide Queue, Flatten, PowerPhase, CurrentPhase, ModePhase, EnablePhase, PeriodPhase, ServoOnPhase, AttemptAll,
         ModesAttempted, EnablesAttempted, PeriodsAttempted, ServoOnsAttempted;
    PhasesAreIndependent(st, io, canEnable, t);
    var power, current := Flatten(PowerPhase(io, st.lastBattery, t)), Flatten(CurrentPhase(t));
    var mode, enable := Flatten(ModePhase(st, io, t)), Flatten(EnablePhase(st, io, canEnable, t));
    var period, servoOn := Flatten(PeriodPhase(st, io, t)), Flatten(ServoOnPhase(st, io, canEnable, t));
    QueueTwice(v, power, current);
    QueueTwice(v, power + current, mode);
    QueueTwice(v, power + current + mode, enable);
    QueueTwice(v, power + current + mode + enable, period);
    QueueTwice(v, power + current + mode + enable + period, servoOn);
  }

  // ---- What every call of the daemon needs, and leaves ----

  /** The handshake is in order, and a ready link has nothing queued, so that its buffer can be cleared. */
  predicate Sound(l: Link) {
    Ordered(l) && (l.sendState == ReadyToSend ==> l.queue == [])
  }

  lemma {:induction false} ReadIsSound(b: Both, ds: seq<Delivery>, ms: seq<Moment>)
    requires Sound(b.traffic.link) && |ms| == |ds| && AllReadable(b, ds, ms)
    ensures Sound(HandledAll(b, ds, ms).traffic.link)
    ensures Sound(FlushedBoth(HandledAll(b, ds, ms)).traffic.link)
    decreases |ds|
  {
    hide Parse, Readable, Handle;
    if ds != [] {
      var n := |ds| - 1;
      ReadIsSound(b, ds[..n], ms[..n]);
      var before := HandledAll(b, ds[..n], ms[..n]);
      ReadyIsEmpty(before.traffic.link, before.store, Parse(ds[n].data, ds[n].crc), ms[n].io, ms[n].now);
    }
  }

  /** No delivery of the read is an early acknowledgement when its turn comes. */
  predicate NoneEarly(b: Both, ds: seq<Delivery>, ms: seq<Moment>)
    requires Ordered(b.traffic.link) && |ms| == |ds| && AllReadable(b, ds, ms)
    decreases |ds|
  {
    ds != [] ==>
      var n := |ds| - 1;
      && NoneEarly(b, ds[..n], ms[..n])
      && !EarlyAck(HandledAll(b, ds[..n], ms[..n]).traffic.link, Parse(ds[n].data, ds[n].crc))
  }

  lemma {:induction false} ReadKeepsTicksSafe(b: Both, ds: seq<Delivery>, ms: seq<Moment>)
    requires Ordered(b.traffic.link) && TickSafe(b.traffic.link) && |ms| == |ds|
    requires AllReadable(b, ds, ms) && NoneEarly(b, ds, ms)
    ensures TickSafe(FlushedBoth(HandledAll(b, ds, ms)).traffic.link)
    ensures TickSafe(HandledAll(b, ds, ms).traffic.link)
    decreases |ds|
  {
    hide Parse, Readable, Handle, EarlyAck;
    if ds != [] {
      var n := |ds| - 1;
      ReadKeepsTicksSafe(b, ds[..n], ms[..n]);
      var before := HandledAll(b, ds[..n], ms[..n]);
      FrameKeepsTicksSafe(before.traffic.link, before.store, Parse(ds[n].data, ds[n].crc), ms[n].io, ms[n].now);
    }
  }

  lemma UpdateIsSound(b: Both, io: Samples, canEnable: bool, now: uint64, lastLoop: uint64)
    requires Sound(b.traffic.link) && TickSafe(b.traffic.link)
    ensures TickSafe(Updated(b, io, canEnable, now, lastLoop).traffic.link)
    ensures Sound(Updated(b, io, canEnable, now, lastLoop).traffic.link)
  {
    hide Protocol.OnUpdate;
    UpdateExtends(b.traffic.link, b.store, io, canEnable, now, lastLoop);
    UpdateShape(b.traffic.link, b.store, io, canEnable, now, lastLoop);
  }
}
