/** The transaction state machine and the windowed sender, as functions of the link and the store. */
module Protocol {
  import opened Bytes
  import opened Frames
  import opened Messages
  import opened Stores
  import opened Wrappers

  const MAX_NUM_OUTSTANDING_MESSAGES := 8
  const MESSAGE_TIMEOUT := 1000000
  const RECOVERY_TIMEOUT := 1000000

  datatype SendState = ReadyToSend | WaitingForPackets | WaitingForFinish

  /** `queue` holds the packets enqueued but not yet written; `window` is the uint8_t count of outstanding messages. */
  datatype Link = Link(
    address: Option<byte>, interfaceId: Option<uint16>, ftdiDone: bool, discoverStart: uint64,
    queue: seq<Packet>, window: byte, sendState: SendState,
    haveBattery: bool, haveBulk: bool, haveStatus: bool, canEnable: bool, deviceReset: bool)

  const NEW_LINK := Link(None, None, false, 0, [], 0, ReadyToSend, false, false, false, false, false)

  /** What one call did: packets enqueued, queued packets written, packets written directly, whether commands were issued. */
  datatype Outcome = Outcome(
    link: Link, store: Store, enqueued: seq<Packet>, sent: seq<Packet>, direct: seq<Packet>, fired: bool)

  // ---- Received frames ----

  datatype Event =
    | Corrupt
    | Nack(reference: byte, payload: seq<byte>)
    | DiscoverReply(source: byte, payload: seq<byte>)
    | FtdiAck
    | InterfaceReply(payload: seq<byte>)
    | Reply(reference: byte, payload: seq<byte>)

  function Parse(data: seq<byte>, crc: byte): Event
    requires |data| >= MIN_FRAME
  {
    var id, reference, payload := PacketId(data), PacketReferenceNumber(data), PacketPayload(data);
    if crc != PacketCrc(data) then Corrupt
    else if id == NACK_ID then Nack(reference, payload)
    else if id == DISCOVER_ID + 0x8000 then DiscoverReply(PacketSourceAddress(data), payload)
    else if id == ACK_ID && reference == MESSAGE_FTDI_RESET_CONTROL then FtdiAck
    else if id == QUERY_INTERFACE_ID + 0x8000 then InterfaceReply(payload)
    else Reply(reference, payload)
  }

  /** The payload is at least as long as what its branch reads at fixed offsets. */
  predicate Readable(l: Link, e: Event) {
    match e
    case Nack(_, payload) => |payload| >= 1
    case DiscoverReply(_, payload) => l.address.None? ==> |payload| >= 1
    case InterfaceReply(payload) => l.interfaceId.None? ==> |payload| >= 2
    case Reply(reference, payload) =>
      && (reference == MESSAGE_MODULE_STATUS ==> |payload| >= 1)
      && (reference == MESSAGE_BULK_INPUT ==> |payload| >= 26)
      && (reference == MESSAGE_BATTERY_VOLTAGE ==> |payload| >= 2)
      && (MESSAGE_MOTOR_GET_CURRENT_0 <= reference < MESSAGE_BULK_INPUT ==> |payload| >= 2)
    case _ => true
  }

  // ---- Handshake ----

  /** Everything a transaction needs to know of the hub is known. */
  predicate Complete(l: Link) {
    l.address.Some? && l.interfaceId.Some? && l.ftdiDone
  }

  /** A transaction is under way only after the handshake. */
  predicate Ordered(l: Link) {
    l.sendState != ReadyToSend ==> Complete(l)
  }

  /** A tick that starts a transaction finds the address and the interface id it dereferences. */
  predicate TickSafe(l: Link) {
    l.ftdiDone ==> l.address.Some? && l.interfaceId.Some?
  }

  function TargetOf(l: Link): Target
    requires l.address.Some? && l.interfaceId.Some?
  {
    Target(l.address.value, l.interfaceId.value)
  }

  /** The next handshake packet, unless one was sent within the last second. */
  function Synchronize(l: Link, now: uint64): (Link, seq<Packet>) {
    if Complete(l) || Elapsed(now, l.discoverStart) <= MESSAGE_TIMEOUT then (l, [])
    else if l.address.None? then (l.(discoverStart := now), [Discover()])
    else if l.interfaceId.None? then (l.(discoverStart := now), [QueryInterface(l.address.value)])
    else (l.(discoverStart := now), [FtdiConfigure(TargetOf(l))])
  }

  // ---- Sending ----

  /** `size_t allowed = 8 - outstandingMessages`: enormous when the counter exceeds eight. */
  function FlushCount(window: byte, available: nat): nat {
    var allowed := (MAX_NUM_OUTSTANDING_MESSAGES - window) % 0x1_0000_0000_0000_0000;
    if allowed < available then allowed else available
  }

  function Flush(l: Link): (Link, seq<Packet>) {
    var n := FlushCount(l.window, |l.queue|);
    (l.(queue := l.queue[n..], window := (l.window + n) % 0x100), l.queue[..n])
  }

  function Enqueue(l: Link, ps: seq<Packet>): Link {
    l.(queue := l.queue + ps)
  }

  // ---- Replies ----

  predicate HaveAll(l: Link) {
    l.haveBattery && l.haveBulk && l.haveStatus
  }

  predicate Fires(l: Link) {
    l.sendState == WaitingForPackets && HaveAll(l)
  }

  function Finish(l: Link): Link {
    if l.queue == [] && l.window == 0 then l.(sendState := ReadyToSend) else l
  }

  /** The command batch the callback enqueues and flushes, and the state it leaves. */
  function IssueCommands(l: Link, st: Store, io: Samples): Outcome
    requires l.address.Some? && l.interfaceId.Some?
  {
    var ps := CommandPackets(st, io, l.canEnable, l.deviceReset, TargetOf(l));
    var (l', sent) := Flush(Enqueue(l, ps));
    Outcome(l'.(sendState := WaitingForFinish), CommandStore(st, io, l.canEnable, l.deviceReset), ps, sent, [], true)
  }

  function Quiet(l: Link, st: Store): Outcome {
    Outcome(l, st, [], [], [], false)
  }

  /** `outstandingMessages--`: a uint8_t with no guard. */
  function Answered(l: Link): Link {
    l.(window := (l.window - 1) % 0x100)
  }

  /** `CheckForStateAdvance`. */
  function Advance(l: Link, st: Store, io: Samples): Outcome
    requires Ordered(l)
  {
    var o := if Fires(Answered(l)) then IssueCommands(Answered(l), st, io) else Quiet(Answered(l), st);
    o.(link := Finish(o.link))
  }

  /** What a valid reply changes before the state advances. */
  function NoteReply(l: Link, reference: byte, payload: seq<byte>): Link
    requires Readable(l, Reply(reference, payload))
  {
    if reference == MESSAGE_MODULE_STATUS then l.(haveStatus := true, deviceReset := payload[0] != 0)
    else if reference == MESSAGE_BULK_INPUT then l.(haveBulk := true)
    else if reference == MESSAGE_BATTERY_VOLTAGE then l.(haveBattery := true)
    else l
  }

  function BulkEncoders(st: Store, payload: seq<byte>, io: Samples): Store
    requires |payload| >= 26
  {
    st.(motors := seq(NUM_MOTORS, i requires 0 <= i < NUM_MOTORS =>
          ScaledEncoder(st.motors[i], io.motors[i], ReadInt32(payload[1 + 4 * i..]), ReadInt16(payload[18 + 2 * i..]))))
  }

  function RecordReply(st: Store, reference: byte, payload: seq<byte>, io: Samples): Store
    requires Readable(NEW_LINK, Reply(reference, payload))
  {
    if MESSAGE_MOTOR_RESET_ENCODER_0 <= reference < MESSAGE_MOTOR_SET_RUN_MODE_0 then
      var i := reference - MESSAGE_MOTOR_RESET_ENCODER_0;
      st.(motors := st.motors[i := st.motors[i].(doReset := false)])
    else if RegisterOf(reference).Some? then Acknowledge(st, RegisterOf(reference).value)
    else if reference == MESSAGE_BULK_INPUT then BulkEncoders(st, payload, io)
    else if reference == MESSAGE_BATTERY_VOLTAGE then st.(lastBattery := ReadInt16(payload) as real / 1000.0)
    else st
  }

  /** What an event takes off the window: one, for everything but handshake traffic. */
  predicate Counts(l: Link, e: Event) {
    match e
    case Corrupt => l.interfaceId.Some?
    case Nack(reference, _) => reference != MESSAGE_DISCOVER && reference != MESSAGE_QUERY_INTERFACE
    case Reply(_, _) => true
    case _ => false
  }

  function Noted(l: Link, e: Event): (l': Link)
    requires Readable(l, e)
    ensures Ordered(l) ==> Ordered(l')
  {
    if e.Reply? then NoteReply(l, e.reference, e.payload) else l
  }

  function Recorded(st: Store, e: Event, io: Samples): Store
    requires e.Reply? ==> Readable(NEW_LINK, e)
  {
    match e
    case Corrupt => st.(numCrcFailures := st.numCrcFailures + 1)
    case Nack(_, _) => st.(numNacks := st.numNacks + 1)
    case Reply(reference, payload) => RecordReply(st, reference, payload, io)
    case _ => st
  }

  predicate Teaches(l: Link, e: Event)
    requires Readable(l, e)
  {
    match e
    case DiscoverReply(_, payload) => l.address.None? && payload[0] == 1
    case FtdiAck => true
    case InterfaceReply(_) => l.interfaceId.None?
    case _ => false
  }

  function Taught(l: Link, e: Event): Link
    requires Readable(l, e) && Teaches(l, e)
  {
    match e
    case DiscoverReply(source, _) => l.(address := Some(source), discoverStart := 0)
    case FtdiAck => l.(ftdiDone := true, discoverStart := 0)
    case InterfaceReply(payload) => l.(interfaceId := Some(ReadUint16(payload)), discoverStart := 0)
  }

  /** The handshake replies: each is taken once, and the next request goes out at once. */
  function Greet(l: Link, e: Event, now: uint64): (Link, seq<Packet>)
    requires Readable(l, e)
  {
    if Teaches(l, e) then Synchronize(Taught(l, e), now) else (l, [])
  }

  /** `HandlePayload`. */
  function Handle(l: Link, st: Store, e: Event, io: Samples, now: uint64): Outcome
    requires Ordered(l) && Readable(l, e)
  {
    if Counts(l, e) then Advance(Noted(l, e), Recorded(st, e, io), io)
    else
      var (l', direct) := Greet(l, e, now);
      Outcome(l', Recorded(st, e, io), [], [], direct, false)
  }

  // ---- The periodic update ----

  function Recover(l: Link): Link {
    l.(window := 0, queue := [])
  }

  /** Nothing may be queued: the write buffer is cleared here and the list of frame sizes is not. */
  function StartTransaction(l: Link, canEnable: bool): Link
    requires l.queue == []
  {
    l.(canEnable := canEnable, haveBattery := false, haveBulk := false, haveStatus := false,
       sendState := WaitingForPackets)
  }

  function SendInitial(l: Link, st: Store, io: Samples): Outcome
    requires l.address.Some? && l.interfaceId.Some?
  {
    var ps := InitialPackets(st, io, TargetOf(l));
    var (l', sent) := Flush(Enqueue(l, ps));
    Outcome(l', InitialStore(st, io), ps, sent, [], false)
  }

  datatype Update = Update(outcome: Outcome, lastLoop: uint64, started: bool)

  function OnUpdate(l: Link, st: Store, io: Samples, canEnable: bool, now: uint64, lastLoop: uint64): Update
    requires Ordered(l) && TickSafe(l)
    requires l.sendState == ReadyToSend ==> l.queue == []
  {
    var allowSend := l.sendState == ReadyToSend;
    if !l.ftdiDone then
      var (l', direct) := Synchronize(l, now);
      Update(Outcome(l', st, [], [], direct, false), lastLoop, false)
    else if !allowSend && Elapsed(now, lastLoop) < RECOVERY_TIMEOUT then
      Update(Outcome(l, st.(numMissedSendLoops := st.numMissedSendLoops + 1), [], [], [], false), lastLoop, false)
    else
      var l1 := if allowSend then l else Recover(l);
      Update(SendInitial(StartTransaction(l1, canEnable), st, io), now, true)
  }

  /** A tick starts a transaction when the last one has ended, or a second has gone by since it began. */
  predicate Starts(l: Link, now: uint64, lastLoop: uint64) {
    l.ftdiDone && (l.sendState == ReadyToSend || Elapsed(now, lastLoop) >= RECOVERY_TIMEOUT)
  }

  // ---- Which frames make a later tick unsafe ----

  /** The final acknowledgement before the address or the interface id is known: the code takes it all the same. */
  predicate EarlyAck(l: Link, e: Event) {
    e.FtdiAck? && (l.address.None? || l.interfaceId.None?)
  }

  /** The tick starts a transaction and dereferences an address or an interface id that is not there. */
  predicate Dereferences(l: Link, now: uint64, lastLoop: uint64) {
    Starts(l, now, lastLoop) && (l.address.None? || l.interfaceId.None?)
  }

  /** An unsafe link is idle, so whatever the clock says its very next tick dereferences nothing; a safe one never does. */
  lemma TickSafeIff(l: Link, now: uint64, lastLoop: uint64)
    requires Ordered(l)
    ensures Dereferences(l, now, lastLoop) <==> !TickSafe(l)
  {
  }

  /** The smallest case: a new link that gets the acknowledgement first. */
  lemma EarlyAckBreaksNextTick(st: Store, io: Samples, now: uint64, later: uint64, lastLoop: uint64)
    ensures EarlyAck(NEW_LINK, FtdiAck) && Readable(NEW_LINK, FtdiAck)
    ensures Dereferences(Handle(NEW_LINK, st, FtdiAck, io, now).link, later, lastLoop)
  {
  }

  // ---- Laws of single calls ----

  /** The handshake facts, once established, stay: the address, the interface id and the final flag are set once. */
  predicate Extends(l: Link, l': Link) {
    && (l.address.Some? ==> l'.address == l.address)
    && (l.interfaceId.Some? ==> l'.interfaceId == l.interfaceId)
    && (l.ftdiDone ==> l'.ftdiDone)
  }

  predicate SameHandshake(l: Link, l': Link) {
    l'.address == l.address && l'.interfaceId == l.interfaceId && l'.ftdiDone == l.ftdiDone
  }

  lemma AdvanceExtends(l: Link, st: Store, io: Samples)
    requires Ordered(l)
    ensures var o := Advance(l, st, io); Ordered(o.link) && SameHandshake(l, o.link) && o.direct == []
  {
    hide CommandPackets, CommandStore;
  }

  lemma HandleExtends(l: Link, st: Store, e: Event, io: Samples, now: uint64)
    requires Ordered(l) && Readable(l, e)
    ensures Ordered(Handle(l, st, e, io, now).link)
    ensures Extends(l, Handle(l, st, e, io, now).link)
    ensures Complete(l) ==> Handle(l, st, e, io, now).direct == []
  {
    if Counts(l, e) {
      NotedTraffic(l, e);
      hide Recorded, Noted, Advance;
      AdvanceExtends(Noted(l, e), Recorded(st, e, io), io);
    } else {
      GreetIsQuiet(l, e, now);
    }
  }

  lemma UpdateExtends(l: Link, st: Store, io: Samples, canEnable: bool, now: uint64, lastLoop: uint64)
    requires Ordered(l) && TickSafe(l)
    requires l.sendState == ReadyToSend ==> l.queue == []
    ensures Ordered(OnUpdate(l, st, io, canEnable, now, lastLoop).outcome.link)
    ensures TickSafe(OnUpdate(l, st, io, canEnable, now, lastLoop).outcome.link)
    ensures Extends(l, OnUpdate(l, st, io, canEnable, now, lastLoop).outcome.link)
    ensures l.ftdiDone ==> OnUpdate(l, st, io, canEnable, now, lastLoop).outcome.direct == []
  {
    hide InitialPackets, InitialStore;
  }

  lemma NotedTraffic(l: Link, e: Event)
    requires Readable(l, e)
    ensures Noted(l, e).queue == l.queue && Noted(l, e).window == l.window
    ensures SameHandshake(l, Noted(l, e))
  {
    hide Readable;
  }

  /** A received frame leaves the ticks safe if and only if it is not an early acknowledgement. */
  lemma FrameKeepsTicksSafe(l: Link, st: Store, e: Event, io: Samples, now: uint64)
    requires Ordered(l) && TickSafe(l) && Readable(l, e)
    ensures TickSafe(Handle(l, st, e, io, now).link) <==> !EarlyAck(l, e)
  {
    hide Advance, Recorded, Noted;
    if Counts(l, e) {
      NotedTraffic(l, e);
      AdvanceExtends(Noted(l, e), Recorded(st, e, io), io);
    } else {
      GreetIsQuiet(l, e, now);
    }
  }

  /** Only the handshake fields differ. */
  predicate SameTransaction(l: Link, l': Link) {
    l' == l.(address := l'.address, interfaceId := l'.interfaceId, ftdiDone := l'.ftdiDone, discoverStart := l'.discoverStart)
  }

  predicate SameCommands(st: Store, st': Store) {
    st'.motors == st.motors && st'.servos == st.servos && st'.lastBattery == st.lastBattery
  }

  lemma SynchronizeIsQuiet(l: Link, now: uint64)
    ensures var (l', direct) := Synchronize(l, now);
            && SameTransaction(l, l') && l'.address == l.address
            && l'.interfaceId == l.interfaceId && l'.ftdiDone == l.ftdiDone
            && (Complete(l) ==> direct == []) && |direct| <= 1
            && (direct != [] ==>
                  direct[0].number == if l.address.None? then MESSAGE_DISCOVER
                                      else if l.interfaceId.None? then MESSAGE_QUERY_INTERFACE
                                      else MESSAGE_FTDI_RESET_CONTROL)
  {
  }

  lemma GreetIsQuiet(l: Link, e: Event, now: uint64)
    requires Readable(l, e)
    ensures var (l', direct) := Greet(l, e, now);
            && SameTransaction(l, l') && (Ordered(l) ==> Ordered(l')) && Extends(l, l')
            && (Complete(l) ==> direct == [])
            && (l.address.None? && l'.address.Some? ==> e.DiscoverReply? && l'.address == Some(e.source) && e.payload[0] == 1)
            && (!l.ftdiDone && l'.ftdiDone ==> e.FtdiAck?)
            && (l.interfaceId.None? && l'.interfaceId.Some? ==>
                  e.InterfaceReply? && l'.interfaceId == Some(ReadUint16(e.payload)))
            && |direct| <= 1
            && (direct != [] ==>
                  && !Complete(l')
                  && direct[0].number == if l'.address.None? then MESSAGE_DISCOVER
                                         else if l'.interfaceId.None? then MESSAGE_QUERY_INTERFACE
                                         else MESSAGE_FTDI_RESET_CONTROL)
  {
    hide ReadUint16, Synchronize, Readable, Teaches, Taught;
    if Teaches(l, e) {
      TaughtFacts(l, e);
      SynchronizeIsQuiet(Taught(l, e), now);
    }
  }

  /** One handshake fact is learned, from its own kind of reply. */
  lemma TaughtFacts(l: Link, e: Event)
    requires Readable(l, e) && Teaches(l, e)
    ensures var l' := Taught(l, e);
            && SameTransaction(l, l') && Extends(l, l')
            && (Complete(l) ==> Complete(l'))
            && (l.address.None? && l'.address.Some? ==> e.DiscoverReply? && l'.address == Some(e.source) && e.payload[0] == 1)
            && (!l.ftdiDone && l'.ftdiDone ==> e.FtdiAck?)
            && (l.interfaceId.None? && l'.interfaceId.Some? ==>
                  e.InterfaceReply? && l'.interfaceId == Some(ReadUint16(e.payload)))
  {
    hide ReadUint16;
  }

  // ---- What the handshake requests mean to the hub ----

  /** What the link has learned is what the hub is. */
  predicate Knows(l: Link, hub: Target) {
    (l.address.Some? ==> l.address.value == hub.address) && (l.interfaceId.Some? ==> l.interfaceId.value == hub.interfaceId)
  }

  /** The question the handshake has to ask next. */
  function DueAction(l: Link): Action {
    if l.address.None? then Announce else if l.interfaceId.None? then NameInterface else Configure
  }

  lemma SynchronizeMeans(l: Link, now: uint64, hub: Target)
    requires Knows(l, hub) && UsableInterface(hub.interfaceId)
    ensures forall p | p in Synchronize(l, now).1 :: Understood(hub, p) && Interpret(hub, p) == DueAction(l)
  {
    hide Interpret, Discover, QueryInterface, FtdiConfigure;
    HandshakeUnderstood(hub);
  }

  /** The reply tells the hub's own address or interface id. */
  predicate Truthful(e: Event, hub: Target) {
    match e
    case DiscoverReply(source, payload) => payload != [] && payload[0] == 1 ==> source == hub.address
    case InterfaceReply(payload) => |payload| >= 2 ==> ReadUint16(payload) == hub.interfaceId
    case _ => true
  }

  /** From truthful replies the link learns what the hub is, and asks it, by what it has learned, for what is due. */
  lemma GreetMeans(l: Link, e: Event, now: uint64, hub: Target)
    requires Readable(l, e) && Knows(l, hub) && Truthful(e, hub) && UsableInterface(hub.interfaceId)
    ensures var (l', direct) := Greet(l, e, now);
            && Knows(l', hub)
            && forall p | p in direct :: Understood(hub, p) && Interpret(hub, p) == DueAction(l')
  {
    hide ReadUint16, Synchronize, Understood, Interpret;
    if Teaches(l, e) {
      SynchronizeIsQuiet(Taught(l, e), now);
      SynchronizeMeans(Taught(l, e), now, hub);
    }
  }

  // ---- When the handshake requests go out ----

  /** A request is not repeated within a second, unless a reply came in between. */
  lemma RequestsWait(l: Link, now: uint64, later: uint64)
    requires Synchronize(l, now).1 != [] && Elapsed(later, now) <= 1_000_000
    ensures Synchronize(Synchronize(l, now).0, later).1 == []
  {
  }

  /** After a second it is; and what a reply teaches is followed up at once. */
  lemma RequestsComeBack(l: Link, now: uint64, later: uint64)
    requires !Complete(l) && Synchronize(l, now).1 != [] && Elapsed(later, now) > 1_000_000
    ensures Synchronize(Synchronize(l, now).0, later).1 == Synchronize(l, now).1
  {
  }

  lemma RepliesAreFollowedUp(l: Link, e: Event, now: uint64)
    requires Readable(l, e) && Teaches(l, e) && now > 1_000_000
    ensures Greet(l, e, now).1 == [] <==> Complete(Greet(l, e, now).0)
  {
    hide ReadUint16;
  }

  // ---- Queue and wire ----

  /** Packets move from the queue to the wire in order: nothing is lost, added or reordered by any reply. */
  lemma HandleConservesQueue(l: Link, st: Store, e: Event, io: Samples, now: uint64)
    requires Ordered(l) && Readable(l, e)
    ensures var o := Handle(l, st, e, io, now);
            && o.sent + o.link.queue == l.queue + o.enqueued
            && o.link.window == (l.window + |o.sent| - (if Counts(l, e) then 1 else 0)) % 0x100
            && (!o.fired ==> o.enqueued == [] && o.sent == [])
  {
    hide Recorded, Noted, Advance, Greet;
    if Counts(l, e) {
      NotedTraffic(l, e);
      AdvanceConservesQueue(Noted(l, e), Recorded(st, e, io), io);
    } else {
      GreetIsQuiet(l, e, now);
    }
  }

  lemma FlushKeepsState(l: Link)
    ensures Flush(l).0 == l.(queue := Flush(l).0.queue, window := Flush(l).0.window)
  {
    hide FlushCount;
  }

  lemma FlushConservesQueue(l: Link)
    ensures var (l', sent) := Flush(l);
            && sent + l'.queue == l.queue
            && l'.window == (l.window + |sent|) % 0x100
  {
  }

  lemma AdvanceConservesQueue(l: Link, st: Store, io: Samples)
    requires Ordered(l)
    ensures var o := Advance(l, st, io);
            && o.sent + o.link.queue == l.queue + o.enqueued
            && o.link.window == (l.window + |o.sent| - 1) % 0x100
            && (!o.fired ==> o.enqueued == [] && o.sent == [])
  {
    hide CommandPackets, CommandStore;
  }

  lemma UpdateConservesQueue(l: Link, st: Store, io: Samples, canEnable: bool, now: uint64, lastLoop: uint64)
    requires Ordered(l) && TickSafe(l)
    requires l.sendState == ReadyToSend ==> l.queue == []
    ensures var u := OnUpdate(l, st, io, canEnable, now, lastLoop);
            var base := if u.started && l.sendState != ReadyToSend then Recover(l) else l;
            && u.outcome.sent + u.outcome.link.queue == base.queue + u.outcome.enqueued
            && u.outcome.link.window == (base.window + |u.outcome.sent|) % 0x100
            && (u.started ==> base.queue == [] && u.outcome.enqueued == InitialPackets(st, io, TargetOf(l)))
            && (!u.started ==> u.outcome.enqueued == [] && u.outcome.sent == [])
  {
    hide InitialPackets, InitialStore, FlushCount, Synchronize;
    SynchronizeIsQuiet(l, now);
    if Starts(l, now, lastLoop) {
      StartConservesQueue(if l.sendState == ReadyToSend then l else Recover(l), st, io, canEnable);
    }
  }

  lemma StartConservesQueue(l: Link, st: Store, io: Samples, canEnable: bool)
    requires l.queue == [] && l.address.Some? && l.interfaceId.Some?
    ensures var o := SendInitial(StartTransaction(l, canEnable), st, io);
            && o.sent + o.link.queue == o.enqueued == InitialPackets(st, io, TargetOf(l))
            && o.link.window == (l.window + |o.sent|) % 0x100
  {
    hide InitialPackets, InitialStore, Flush;
    var ps := InitialPackets(st, io, TargetOf(l));
    assert [] + ps == ps;
    FlushConservesQueue(Enqueue(StartTransaction(l, canEnable), ps));
  }

  lemma ReadyIsEmpty(l: Link, st: Store, e: Event, io: Samples, now: uint64)
    requires Ordered(l) && Readable(l, e) && (l.sendState == ReadyToSend ==> l.queue == [])
    ensures var o := Handle(l, st, e, io, now);
            && (o.link.sendState == ReadyToSend ==> o.link.queue == [])
            && (o.fired ==> l.sendState == WaitingForPackets && o.link.sendState != WaitingForPackets)
            && (!o.fired ==> o.link.sendState == l.sendState || o.link.sendState == ReadyToSend)
  {
    if Counts(l, e) {
      NotedSendState(l, e);
      hide CommandPackets, CommandStore, Recorded, Noted;
    } else {
      GreetIsQuiet(l, e, now);
      hide Greet;
    }
  }

  lemma NotedSendState(l: Link, e: Event)
    requires Readable(l, e)
    ensures Noted(l, e).sendState == l.sendState && Noted(l, e).queue == l.queue
  {
  }

  lemma UpdateShape(l: Link, st: Store, io: Samples, canEnable: bool, now: uint64, lastLoop: uint64)
    requires Ordered(l) && TickSafe(l) && (l.sendState == ReadyToSend ==> l.queue == [])
    ensures var u := OnUpdate(l, st, io, canEnable, now, lastLoop);
            && !u.outcome.fired
            && (if u.started then u.outcome.link.sendState == WaitingForPackets
                else u.outcome.link.sendState == l.sendState && u.outcome.link.queue == l.queue
                     && u.outcome.link.window == l.window)
  {
    hide InitialPackets, InitialStore;
  }
}
