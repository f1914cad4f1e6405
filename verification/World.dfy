/**
 * The daemon against a hub: a state machine whose steps are the daemon's timer and read events, the hub working off
 * the frames on the wire, a power cycle of the hub, and a reconnect. The hub answers a written frame at most once and
 * in any order, with a reply, a NACK or a frame that arrives corrupted, or not at all. Two things are assumed of it:
 * it works off frames in the order they were written, and answers still under way when the daemon recovers never come.
 */
module World {
  import opened Batches
  import opened Bytes
  import opened Caches
  import opened Frames
  import opened Messages
  import opened Protocol
  import opened Stores
  import opened Wrappers

  type PerMotor = s: seq<nat> | |s| == NUM_MOTORS witness [0, 0, 0, 0]

  type Stamps = s: seq<int64> | |s| == NUM_MOTORS witness [0, 0, 0, 0]

  /** Register values, the status flag a power cycle raises, and the last transaction whose encoder reset was done. */
  datatype Device = Device(registers: Register -> int, raised: bool, zeroed: PerMotor)

  /**
   * `log` lists the packets enqueued in this transaction: the first `written` are on the wire, the first `processed`
   * of those were worked off by the hub. `open` are the written ones not yet answered, `outbox` the answers under
   * way, `dead` the frames of earlier transactions the hub has yet to work off, `asked` the packets sent around the
   * queue to this device, in order. `replied` holds the numbers answered by a reply in this transaction,
   * `batches` counts command batches in it, `sampled` is what the last one sampled, `statusRead` the flag the hub
   * reported to its status request. `unacted` marks a power cycle no command batch has acted on. `requested` is the
   * transaction that saw a motor's last reset request, `observed` the time stamps and `allowed` the enable input at
   * the last tick that started one. `hub` is the device's own address and interface id.
   */
  datatype World = World(
    link: Link, store: Store, lastLoop: uint64, device: Device,
    log: seq<Packet>, written: nat, processed: nat, open: set<nat>, outbox: map<nat, Event>, dead: seq<Packet>,
    asked: seq<Packet>, transaction: nat, replied: set<int>, batches: nat, sampled: Samples,
    statusRead: bool, unacted: bool, requested: PerMotor, observed: Stamps, allowed: bool, hub: Target)

  function Interval(low: nat, high: nat): (s: set<nat>)
    ensures forall k: nat :: k in s <==> low <= k < high
    ensures low <= high ==> |s| == high - low
    decreases high
  {
    if low < high then Interval(low, high - 1) + {high - 1} else {}
  }

  function ActionOf(w: World, p: Packet): Action {
    Interpret(w.hub, p)
  }

  // ---- The steps ----

  /** One frame handled inside a read: an answer under way, or a reply to a handshake request. */
  datatype Pick =
    | Queued(index: nat, io: Samples, now: uint64)
    | Handshake(number: byte, event: Event, io: Samples, now: uint64)

  datatype Step =
    | Timer(io: Samples, canEnable: bool, time: uint64)
    | Process(applied: bool, answer: Option<Event>)
    | Read(picks: seq<Pick>)
    | PowerCycle(registers: Register -> int)
    | Reconnect(values: Register -> int, flag: bool, start: uint64, hub: Target)

  /** What the hub may answer to a frame: a reply only when it acted on it, echoing the number and long enough to read. */
  predicate Fits(w: World, p: Packet, e: Event) {
    match e
    case Corrupt => true
    case Nack(reference, payload) => reference == p.number && |payload| >= 1
    case Reply(reference, _) => reference == p.number && Readable(NEW_LINK, e)
    case _ => false
  }

  /** The daemon has sent a packet around the queue that the hub reads as this. */
  predicate Asked(w: World, a: Action) {
    exists p :: p in w.asked && ActionOf(w, p) == a
  }

  /**
   * What may come back for a handshake request: the hub tells its own address and interface id, and only when it was
   * asked for them. A NACK or corruption the window would be charged for is excluded.
   */
  predicate HandshakeFits(w: World, number: byte, e: Event) {
    && number as int in Numbers(w.asked)
    && Readable(w.link, e)
    && match e
       case Corrupt => w.link.interfaceId.None?
       case Nack(reference, _) => reference == number && number != MESSAGE_FTDI_RESET_CONTROL
       case DiscoverReply(source, payload) =>
         number == MESSAGE_DISCOVER && Asked(w, Announce) && (payload != [] && payload[0] == 1 ==> source == w.hub.address)
       case FtdiAck => number == MESSAGE_FTDI_RESET_CONTROL && Asked(w, Configure)
       case InterfaceReply(payload) =>
         && number == MESSAGE_QUERY_INTERFACE && Asked(w, NameInterface)
         && |payload| >= 2 && ReadUint16(payload) == w.hub.interfaceId
       case Reply(_, _) => false
  }

  function Perform(d: Device, a: Action, transaction: nat): Device {
    match a
    case Write(r, v) => d.(registers := (q: Register) => if q == r then v else d.registers(q))
    case ZeroEncoder(i) => d.(zeroed := d.zeroed[i := transaction])
    case ReadStatus(clear) => d.(raised := d.raised && !clear)
    case _ => d
  }

  /** The flag the status reply must report: what was raised when the hub read it. */
  predicate StatusFits(w: World, p: Packet, e: Event) {
    ActionOf(w, p).ReadStatus? && e.Reply? && |e.payload| >= 1 ==> (e.payload[0] != 0) == w.device.raised
  }

  predicate CanProcess(w: World, applied: bool, answer: Option<Event>) {
    if w.dead != [] then answer.None?
    else
      && w.processed < w.written <= |w.log|
      && (answer.Some? ==>
            && Fits(w, w.log[w.processed], answer.value)
            && StatusFits(w, w.log[w.processed], answer.value)
            && (answer.value.Reply? ==> applied))
  }

  /** A frame of an earlier transaction can still act, but its answer is lost. */
  function ProcessDead(w: World, applied: bool): World
    requires w.dead != []
  {
    w.(device := if applied then PerformDead(w.device, ActionOf(w, w.dead[0])) else w.device, dead := w.dead[1..])
  }

  function PerformDead(d: Device, a: Action): Device {
    if a.ZeroEncoder? then d else Perform(d, a, 0)
  }

  function ProcessLive(w: World, applied: bool, answer: Option<Event>): World
    requires w.processed < w.written <= |w.log|
  {
    var p := w.log[w.processed];
    w.(device := if applied then Perform(w.device, ActionOf(w, p), w.transaction) else w.device,
       statusRead := if applied && ActionOf(w, p).ReadStatus? then w.device.raised else w.statusRead,
       processed := w.processed + 1,
       outbox := if answer.Some? then w.outbox[w.processed := answer.value] else w.outbox)
  }

  predicate CanDeliver(w: World, pick: Pick) {
    match pick
    case Queued(i, _, _) => i in w.outbox && i < |w.log|
    case Handshake(number, e, _, _) => HandshakeFits(w, number, e)
  }

  function Numbers(ps: seq<Packet>): set<int> {
    set p | p in ps :: p.number as int
  }

  /** The world after a call of the daemon: its packets go to the log, what it wrote goes on the wire. */
  function Absorb(w: World, o: Outcome, io: Samples): World {
    w.(link := o.link, store := o.store,
       log := w.log + o.enqueued,
       written := w.written + |o.sent|,
       open := w.open + Interval(w.written, w.written + |o.sent|),
       asked := w.asked + o.direct,
       batches := if o.fired then w.batches + 1 else w.batches,
       sampled := if o.fired then io else w.sampled,
       unacted := w.unacted && !(o.fired && o.link.deviceReset))
  }

  /** The answer to frame i leaves the wire. */
  function Take(w: World, i: nat): World
    requires i in w.outbox
  {
    var e := w.outbox[i];
    w.(open := w.open - {i}, outbox := w.outbox - {i},
       replied := if e.Reply? then w.replied + {e.reference as int} else w.replied)
  }

  function Deliver(w: World, pick: Pick): World
    requires CanDeliver(w, pick)
    requires Ordered(w.link)
    requires Readable(w.link, if pick.Queued? then w.outbox[pick.index] else pick.event)
  {
    match pick
    case Queued(i, io, now) => Absorb(Take(w, i), Handle(w.link, w.store, w.outbox[i], io, now), io)
    case Handshake(_, e, io, now) => Absorb(w, Handle(w.link, w.store, e, io, now), io)
  }

  function Flushed(w: World): World {
    var (l, sent) := Flush(w.link);
    Absorb(w, Outcome(l, w.store, [], sent, [], false), w.sampled)
  }

  function Tick(w: World, io: Samples, canEnable: bool, now: uint64): World
    requires Ordered(w.link) && TickSafe(w.link) && (w.link.sendState == ReadyToSend ==> w.link.queue == [])
    requires w.processed <= w.written <= |w.log|
  {
    var u := OnUpdate(w.link, w.store, io, canEnable, now, w.lastLoop);
    var v := if u.started then Restarted(w, io, canEnable) else w;
    Absorb(v, u.outcome, io).(lastLoop := u.lastLoop)
  }

  /** A new transaction: answers under way are gone, frames not worked off are dead. */
  function Restarted(w: World, io: Samples, canEnable: bool): World
    requires w.processed <= w.written <= |w.log|
  {
    w.(log := [], written := 0, processed := 0, open := {}, outbox := map[],
       dead := w.dead + w.log[w.processed..w.written],
       transaction := w.transaction + 1, replied := {}, batches := 0,
       requested := seq(NUM_MOTORS, i requires 0 <= i < NUM_MOTORS =>
         if io.motors[i].resetTime != w.observed[i] then w.transaction + 1 else w.requested[i]),
       observed := seq(NUM_MOTORS, i requires 0 <= i < NUM_MOTORS => io.motors[i].resetTime),
       allowed := canEnable)
  }

  /**
   * `OnDeviceAdded` for a fresh link that has just run its first handshake step. What was asked of the old device and
   * what that did is no record of the new one; a request still open stays open.
   */
  function Reconnected(w: World, values: Register -> int, flag: bool, now: uint64, hub: Target): World {
    var (l, direct) := Synchronize(NEW_LINK, now);
    var st := Afresh(w.store);
    Absorb(World(NEW_LINK, w.store, w.lastLoop, Device(values, flag, [0, 0, 0, 0]), [], 0, 0, {}, map[], [], [],
                 w.transaction, {}, 0, w.sampled, w.statusRead, false, [0, 0, 0, 0], w.observed, false, hub),
           Outcome(l, st, [], [], direct, false), w.sampled)
  }

  /** Before any device: the daemon's store as it starts out. */
  function Start(st: Store, lastLoop: uint64, registers: Register -> int, raised: bool, io: Samples,
                 hub: Target): World {
    World(NEW_LINK, st, lastLoop, Device(registers, raised, [0, 0, 0, 0]), [], 0, 0, {}, map[], [], [],
          0, {}, 0, io, false, false, [0, 0, 0, 0],
          seq(NUM_MOTORS, i requires 0 <= i < NUM_MOTORS => st.motors[i].lastResetTime), false, hub)
  }

  ghost predicate Fresh(st: Store) {
    && (forall r: Register :: CacheOf(st, r).lastAcked.None?)
    && forall i: MotorIndex :: !st.motors[i].doReset
  }

  lemma NewStoreIsFresh()
    ensures Fresh(NEW_STORE)
  {
  }

  // ---- The invariant ----

  /** The window counts exactly the written frames not yet answered. */
  predicate WindowFlow(written: nat, processed: nat, open: set<nat>, answered: set<nat>, window: byte) {
    && processed <= written
    && open <= Interval(0, written)
    && Interval(processed, written) <= open
    && answered <= open
    && answered <= Interval(0, processed)
    && |open| <= MAX_NUM_OUTSTANDING_MESSAGES
    && window == |open|
  }

  /** What is queued is the part of the log not yet written. */
  predicate Unwritten<T(==)>(log: seq<T>, written: nat, queue: seq<T>) {
    written <= |log| && queue == log[written..]
  }

  /** Queue, window and wire. */
  predicate FlowInv(w: World) {
    && WindowFlow(w.written, w.processed, w.open, w.outbox.Keys, w.link.window)
    && Unwritten(w.log, w.written, w.link.queue)
    && (w.link.sendState == ReadyToSend ==> w.open == {} && w.link.queue == [])
  }

  /** Discover frames come first, then interface queries, then the final handshake frame. */
  function Stage(p: Packet): int {
    if p.number == MESSAGE_DISCOVER then 0
    else if p.number == MESSAGE_QUERY_INTERFACE then 1
    else if p.number == MESSAGE_FTDI_RESET_CONTROL then 2
    else 3
  }

  predicate InStages(asked: seq<Packet>) {
    && (forall i :: 0 <= i < |asked| ==> Stage(asked[i]) <= 2)
    && forall i, j :: 0 <= i < j < |asked| ==> Stage(asked[i]) <= Stage(asked[j])
  }

  /** The handshake advances one step at a time, each after the hub was asked. */
  predicate HandshakeInv(w: World) {
    && Ordered(w.link) && TickSafe(w.link)
    && UsableInterface(w.hub.interfaceId)
    && (w.link.address.Some? ==> w.link.address.value == w.hub.address)
    && (w.link.interfaceId.Some? ==> w.link.interfaceId.value == w.hub.interfaceId && w.link.address.Some?)
    && InStages(w.asked) && (forall p :: p in w.asked ==> Understood(w.hub, p))
    && (2 in Numbers(w.asked) ==> w.link.address.Some?)
    && (1 in Numbers(w.asked) ==> w.link.interfaceId.Some?)
    && (w.link.address.Some? ==> 0 in Numbers(w.asked))
    && (w.link.interfaceId.Some? ==> 2 in Numbers(w.asked))
    && (w.link.ftdiDone ==> 1 in Numbers(w.asked))
    && (w.link.interfaceId.None? ==> w.log == [] && w.dead == [])
  }

  /** The have-flags record the replies of this transaction; at most one batch, and only with all three. */
  predicate PhaseInv(w: World) {
    && (w.link.haveBattery <==> MESSAGE_BATTERY_VOLTAGE as int in w.replied)
    && (w.link.haveBulk <==> MESSAGE_BULK_INPUT as int in w.replied)
    && (w.link.haveStatus <==> MESSAGE_MODULE_STATUS as int in w.replied)
    && (w.link.haveStatus ==> w.link.deviceReset == w.statusRead)
    && w.link.canEnable == w.allowed
    && w.batches <= 1
    && (w.batches == 1 ==> HaveAll(w.link))
    && (w.link.sendState == WaitingForPackets ==> w.batches == 0)
    && (w.link.sendState == WaitingForFinish ==> w.batches == 1)
    && (w.link.sendState == ReadyToSend && HaveAll(w.link) ==> w.batches == 1)
  }

  /** Between calls: a transaction with all three replies has issued its batch, and one under way has something to wait for. */
  predicate RestInv(w: World) {
    && (w.link.sendState == WaitingForPackets ==> !HaveAll(w.link))
    && (w.link.sendState != ReadyToSend ==> w.open != {} || w.link.queue != [])
  }

  predicate LogInv(w: World) {
    && Distinct(w.log)
    && |w.log| <= 14 + 28 * w.batches
    && (forall n :: n in w.replied ==> OpeningNumber(n) || w.batches > 0)
    && forall i :: 0 <= i < |w.log| ==>
         && Understood(w.hub, w.log[i])
         && (OpeningNumber(w.log[i].number) || (w.batches > 0 && CommandNumber(w.log[i].number)))
  }

  /** A value the cache holds is the value of the register, unless the hub lost power since. */
  predicate CacheTrue(w: World, r: Register) {
    var c := CacheOf(w.store, r).lastAcked;
    c.Some? && !w.unacted ==> w.device.registers(r) == c.value
  }

  /** A frame that writes a register carries the attempted value, which is held as acknowledged exactly when it had a reply. */
  predicate FrameTrue(w: World, i: nat)
    requires i < |w.log|
  {
    match ActionOf(w, w.log[i])
    case Write(r, v) =>
      var c := CacheOf(w.store, r);
      && c.lastAttempted == v
      && (i in w.open || w.written <= i ==> c.lastAcked.None?)
      && (c.lastAcked.Some? <==> w.log[i].number as int in w.replied)
    case _ => true
  }

  predicate DeadTrue(w: World, p: Packet) {
    match ActionOf(w, p)
    case Write(r, _) => CacheOf(w.store, r).lastAcked.None?
    case _ => true
  }

  /** A reply under way tells the truth about the hub. */
  predicate AnswerTrue(w: World, i: nat)
    requires i < |w.log| && i in w.outbox
  {
    && Fits(w, w.log[i], w.outbox[i])
    && (w.outbox[i].Reply? ==>
          match ActionOf(w, w.log[i])
          case Write(r, v) => w.unacted || w.device.registers(r) == v
          case ZeroEncoder(m) => w.device.zeroed[m] >= w.transaction
          case ReadStatus(_) => |w.outbox[i].payload| >= 1 && (w.outbox[i].payload[0] != 0) == w.statusRead
          case _ => true)
  }

  ghost predicate CacheInv(w: World) {
    && (forall r: Register :: CacheTrue(w, r))
    && (forall i: nat :: i < |w.log| ==> FrameTrue(w, i))
    && (forall i: nat :: i < |w.log| && i in w.outbox ==> AnswerTrue(w, i))
    && (forall j: nat :: j < |w.dead| ==> DeadTrue(w, w.dead[j]))
    && (w.processed > 0 ==> w.dead == [])
  }

  /**
   * No encoder reset is forgotten: a motor without an open request was zeroed in or after the transaction that asked.
   * None is repeated either: the store knows the last time stamp that was seen.
   */
  predicate EncoderInv(w: World) {
    forall m: MotorIndex ::
      && w.requested[m] <= w.transaction
      && w.store.motors[m].lastResetTime == w.observed[m]
      && (!w.store.motors[m].doReset ==> w.requested[m] <= w.device.zeroed[m])
  }

  /** After a command batch every cache is about the value it sampled. */
  predicate SampleTrue(w: World, r: Register) {
    var c, code := CacheOf(w.store, r), SampledCode(w.sampled, w.link.canEnable, r);
    || c.lastAcked == Some(code)
    || (c == Cache(None, code) && (Suppressed(r, code) || Holds(w.log, NumberOf(r))))
  }

  /** A frame writes the value the batch sampled. */
  predicate FrameSampled(w: World, p: Packet) {
    match ActionOf(w, p)
    case Write(r, v) => v == SampledCode(w.sampled, w.link.canEnable, r)
    case _ => true
  }

  ghost predicate SampleInv(w: World) {
    w.batches == 1 ==>
      && (forall r: Register :: SampleTrue(w, r))
      && (forall i: nat :: i < |w.log| ==> FrameSampled(w, w.log[i]))
  }

  /** A request whose reply a batch waits for. */
  predicate IsAwaited(n: int) {
    n == MESSAGE_BATTERY_VOLTAGE as int || n == MESSAGE_BULK_INPUT as int || n == MESSAGE_MODULE_STATUS as int
  }

  /**
   * Once the status reply is in, no status request is left for the hub to read, and no answer to one under way. The
   * requests the batch waits for are among the first frames of the transaction, so they are all written.
   */
  predicate StatusInv(w: World) {
    && (w.link.haveStatus ==>
          && (forall i :: w.processed <= i < |w.log| ==> w.log[i].number != MESSAGE_MODULE_STATUS)
          && forall i :: i in w.outbox && i < |w.log| ==> w.log[i].number != MESSAGE_MODULE_STATUS)
    && (w.link.sendState == WaitingForPackets ==>
          forall i: nat :: w.written <= i < |w.log| ==> !IsAwaited(w.log[i].number as int))
  }

  ghost predicate Core(w: World) {
    FlowInv(w) && HandshakeInv(w) && PhaseInv(w) && StatusInv(w) && LogInv(w) && CacheInv(w) && EncoderInv(w) && SampleInv(w)
  }

  ghost predicate Inv(w: World) {
    Core(w) && RestInv(w)
  }
}
