/** What every run keeps, whatever frames arrive and however many: no hub is assumed. */
module Runs {
  import opened Batches
  import opened Bytes
  import opened Buffers
  import opened Caches
  import opened Calls
  import opened Frames
  import opened Messages
  import opened Protocol
  import opened Stores

  datatype Call =
    | Received(event: Event, io: Samples, now: uint64)
    | EndOfRead
    | TimerTick(sampled: Samples, canEnable: bool, time: uint64)

  /**
   * One link from the moment it was opened, with a tally. `base` is what had been written before the present
   * transaction's frames, `batches` counts the command batches issued in it, and `cut` says that it ended while a
   * reply was missing, or that there has been none. Since the last recovery `written` frames went out, `answered`
   * received frames took one of them off the window, and `strays` took one off that was not theirs to take.
   */
  datatype Session = Session(
    both: Both, lastLoop: uint64, base: seq<seq<byte>>,
    batches: nat, cut: bool, written: nat, answered: nat, strays: nat)

  function LinkOf(s: Session): Link {
    s.both.traffic.link
  }

  /** A frame can be read; a tick finds the address and the interface id it dereferences. */
  predicate Able(s: Session, c: Call) {
    match c
    case Received(e, _, _) => Readable(LinkOf(s), e)
    case EndOfRead => true
    case TimerTick(_, _, _) => TickSafe(LinkOf(s))
  }

  /** A frame that is charged to the window although no frame is open, or although it refuses the last handshake frame. */
  predicate IsStray(s: Session, e: Event) {
    && Counts(LinkOf(s), e)
    && (s.written == s.answered || (e.Nack? && e.reference == MESSAGE_FTDI_RESET_CONTROL))
  }

  /** The answer that brings the counter to zero with nothing queued, while one of the three replies is missing. */
  predicate Cuts(l: Link, e: Event)
    requires Readable(l, e)
  {
    && Counts(l, e) && l.sendState == WaitingForPackets && !HaveAll(Noted(l, e))
    && l.queue == [] && l.window == 1
  }

  function AfterFrame(s: Session, e: Event, io: Samples, now: uint64): Session
    requires Sound(LinkOf(s)) && Readable(LinkOf(s), e)
  {
    var l, o := LinkOf(s), Handle(LinkOf(s), s.both.store, e, io, now);
    var b := Handled(s.both, e, io, now);
    Session(b, s.lastLoop, if Complete(l) then s.base else b.traffic.wire,
            if o.fired then s.batches + 1 else s.batches, s.cut || Cuts(l, e), s.written + |o.sent|,
            if Counts(l, e) && !IsStray(s, e) then s.answered + 1 else s.answered,
            if IsStray(s, e) then s.strays + 1 else s.strays)
  }

  /** Handshake frames are written outside any transaction, so they count as written before it. */
  function AfterTick(s: Session, io: Samples, canEnable: bool, time: uint64): Session
    requires Sound(LinkOf(s)) && TickSafe(LinkOf(s))
  {
    var l, u := LinkOf(s), OnUpdate(LinkOf(s), s.both.store, io, canEnable, time, s.lastLoop);
    var b := Updated(s.both, io, canEnable, time, s.lastLoop);
    if !u.started then s.(both := b, lastLoop := u.lastLoop, base := if Complete(l) then s.base else b.traffic.wire)
    else
      var (written, answered, strays) := if l.sendState == ReadyToSend then (s.written, s.answered, s.strays) else (0, 0, 0);
      Session(b, u.lastLoop, s.both.traffic.wire, 0, false, written + |u.outcome.sent|, answered, strays)
  }

  function Continue(s: Session, c: Call): Session
    requires Sound(LinkOf(s)) && Able(s, c)
  {
    match c
    case Received(e, io, now) => AfterFrame(s, e, io, now)
    case EndOfRead => s.(both := FlushedBoth(s.both), written := s.written + |Flush(LinkOf(s)).1|)
    case TimerTick(io, canEnable, time) => AfterTick(s, io, canEnable, time)
  }

  lemma ContinueIsSound(s: Session, c: Call)
    requires Sound(LinkOf(s)) && Able(s, c)
    ensures Sound(LinkOf(Continue(s, c)))
  {
    hide Handle, OnUpdate, Flush, Readable, TickSafe, Cuts, Noted;
    match c
    case Received(e, io, now) =>
      HandleExtends(LinkOf(s), s.both.store, e, io, now);
      ReadyIsEmpty(LinkOf(s), s.both.store, e, io, now);
    case EndOfRead =>
      FlushConservesQueue(LinkOf(s));
      FlushKeepsState(LinkOf(s));
    case TimerTick(io, canEnable, time) =>
      UpdateIsSound(s.both, io, canEnable, time, s.lastLoop);
  }

  predicate AbleAll(s: Session, calls: seq<Call>)
    requires Sound(LinkOf(s))
    decreases |calls|
  {
    calls != [] ==> Able(s, calls[0]) && (ContinueIsSound(s, calls[0]); AbleAll(Continue(s, calls[0]), calls[1..]))
  }

  function ContinueAll(s: Session, calls: seq<Call>): Session
    requires Sound(LinkOf(s)) && AbleAll(s, calls)
    decreases |calls|
  {
    if calls == [] then s else ContinueIsSound(s, calls[0]); ContinueAll(Continue(s, calls[0]), calls[1..])
  }

  // ---- Every tick is safe in a run without early acknowledgements ----

  predicate Orderly(s: Session, c: Call) {
    c.Received? ==> Readable(LinkOf(s), c.event) && !EarlyAck(LinkOf(s), c.event)
  }

  lemma OrderlyCallIsAble(s: Session, c: Call)
    requires Sound(LinkOf(s)) && TickSafe(LinkOf(s)) && Orderly(s, c)
    ensures Able(s, c) && TickSafe(LinkOf(Continue(s, c)))
  {
    hide Handle, OnUpdate, Flush, Readable, EarlyAck, Cuts, Noted;
    match c
    case Received(e, io, now) => FrameKeepsTicksSafe(LinkOf(s), s.both.store, e, io, now);
    case EndOfRead => FlushKeepsState(LinkOf(s));
    case TimerTick(io, canEnable, time) => UpdateIsSound(s.both, io, canEnable, time, s.lastLoop);
  }

  predicate OrderlyAll(s: Session, calls: seq<Call>)
    requires Sound(LinkOf(s)) && TickSafe(LinkOf(s))
    decreases |calls|
  {
    calls != [] ==>
      && Orderly(s, calls[0])
      && (OrderlyCallIsAble(s, calls[0]); ContinueIsSound(s, calls[0]); OrderlyAll(Continue(s, calls[0]), calls[1..]))
  }

  /** Frames of any kind, asked for or not, in any order: short of an early acknowledgement no tick is ever unsafe. */
  lemma {:induction false} OrderlyRunsAreAble(s: Session, calls: seq<Call>)
    requires Sound(LinkOf(s)) && TickSafe(LinkOf(s)) && OrderlyAll(s, calls)
    ensures AbleAll(s, calls) && TickSafe(LinkOf(ContinueAll(s, calls)))
    decreases |calls|
  {
    hide Sound, TickSafe, Orderly, Able, Continue;
    if calls != [] {
      OrderlyCallIsAble(s, calls[0]);
      ContinueIsSound(s, calls[0]);
      OrderlyRunsAreAble(Continue(s, calls[0]), calls[1..]);
    }
  }

  // ---- The law ----

  function Open(s: Session): int {
    s.written - s.answered
  }

  /** The counter is what is open less the strays, as a uint8_t. */
  predicate WindowLaw(s: Session) {
    && s.answered <= s.written
    && LinkOf(s).window == (Open(s) - s.strays) % 0x100
  }

  /** Only strays let the open frames grow past eight, and past what one transaction can enqueue. */
  predicate OpenLaw(s: Session) {
    var l := LinkOf(s);
    && (s.strays == 0 ==> Open(s) <= MAX_NUM_OUTSTANDING_MESSAGES)
    && if l.sendState == ReadyToSend then Open(s) <= s.strays
       else Open(s) + |l.queue| + (if l.sendState == WaitingForPackets then 28 else 0) <= s.strays + 42
  }

  /** A transaction issues one batch, when its three replies are in, unless it was cut before. */
  predicate BatchLaw(s: Session) {
    match LinkOf(s).sendState
    case WaitingForPackets => s.batches == 0 && !s.cut && !HaveAll(LinkOf(s))
    case WaitingForFinish => s.batches == 1 && !s.cut
    case ReadyToSend => s.batches == if s.cut then 0 else 1
  }

  predicate Lawful(s: Session) {
    Sound(LinkOf(s)) && WindowLaw(s) && OpenLaw(s) && BatchLaw(s)
  }

  lemma WindowStep(window: int, open: int, strays: int, sent: int, answer: int, stray: int)
    requires window == (open - strays) % 0x100
    ensures (window + sent - answer - stray) % 0x100 == (open + sent - answer - (strays + stray)) % 0x100
  {
    AddModulo(open - strays, sent - answer - stray);
  }

  lemma EmptyMeansStrays(open: int, strays: int)
    requires (open - strays) % 0x100 == 0 && open <= strays + 42
    ensures open <= strays
  {
  }

  // ---- A received frame ----

  lemma NotedFlags(l: Link, e: Event)
    requires Readable(l, e)
    ensures Noted(l, e) == l.(haveBattery := Noted(l, e).haveBattery, haveBulk := Noted(l, e).haveBulk,
                              haveStatus := Noted(l, e).haveStatus, deviceReset := Noted(l, e).deviceReset)
    ensures HaveAll(l) ==> HaveAll(Noted(l, e))
  {
  }

  /** How an answer moves the transaction on. */
  lemma AdvancePhase(l: Link, st: Store, io: Samples)
    requires Ordered(l)
    ensures var o := Advance(l, st, io);
            && (o.fired <==> l.sendState == WaitingForPackets && HaveAll(l))
            && (o.fired ==> o.link.sendState != WaitingForPackets)
            && (o.link.sendState == ReadyToSend && l.sendState != ReadyToSend ==> o.link.window == 0 && o.link.queue == [])
            && (!o.fired ==> o.link.sendState == if l.queue == [] && l.window == 1 then ReadyToSend else l.sendState)
            && HaveAll(o.link) == HaveAll(l)
  {
    hide CommandPackets, CommandStore, FlushCount;
  }

  /** What it sends: a batch of at most twenty-eight, of which no more is written than the window has room for. */
  lemma AdvanceSends(l: Link, st: Store, io: Samples)
    requires Ordered(l)
    ensures var o := Advance(l, st, io);
            && |o.enqueued| <= 28
            && (1 <= l.window <= MAX_NUM_OUTSTANDING_MESSAGES ==> l.window + |o.sent| - 1 <= MAX_NUM_OUTSTANDING_MESSAGES)
  {
    hide CommandPackets, CommandStore;
    var a := Answered(l);
    if Fires(a) {
      CommandSize(st, io, a.canEnable, a.deviceReset, TargetOf(a));
    }
  }

  lemma FramePhase(l: Link, st: Store, e: Event, io: Samples, now: uint64)
    requires Ordered(l) && Readable(l, e) && Counts(l, e)
    ensures var o := Handle(l, st, e, io, now);
            && (o.fired <==> l.sendState == WaitingForPackets && HaveAll(o.link))
            && (o.fired ==> o.link.sendState != WaitingForPackets)
            && (o.link.sendState == ReadyToSend && l.sendState != ReadyToSend ==> o.link.window == 0 && o.link.queue == [])
            && (!o.fired && l.sendState == WaitingForPackets ==>
                  o.link.sendState == if Cuts(l, e) then ReadyToSend else WaitingForPackets)
            && (Cuts(l, e) ==> !o.fired && l.sendState == WaitingForPackets)
            && |o.enqueued| <= 28
            && (1 <= l.window <= MAX_NUM_OUTSTANDING_MESSAGES ==> l.window + |o.sent| - 1 <= MAX_NUM_OUTSTANDING_MESSAGES)
  {
    hide Noted, Recorded, Advance;
    NotedFlags(l, e);
    AdvancePhase(Noted(l, e), Recorded(st, e, io), io);
    AdvanceSends(Noted(l, e), Recorded(st, e, io), io);
  }

  lemma AfterFrameLink(s: Session, e: Event, io: Samples, now: uint64)
    requires Sound(LinkOf(s)) && Readable(LinkOf(s), e)
    ensures LinkOf(AfterFrame(s, e, io, now)) == Handle(LinkOf(s), s.both.store, e, io, now).link
  {
    hide Handle, Readable, Cuts, Counts;
  }

  lemma CountedWindow(s: Session, e: Event, io: Samples, now: uint64)
    requires Sound(LinkOf(s)) && WindowLaw(s) && Readable(LinkOf(s), e) && Counts(LinkOf(s), e)
    ensures WindowLaw(AfterFrame(s, e, io, now))
  {
    hide Handle, Counts, Readable, Cuts;
    var l, o := LinkOf(s), Handle(LinkOf(s), s.both.store, e, io, now);
    HandleConservesQueue(l, s.both.store, e, io, now);
    if IsStray(s, e) {
      WindowStep(l.window, Open(s), s.strays, |o.sent|, 0, 1);
    } else {
      WindowStep(l.window, Open(s), s.strays, |o.sent|, 1, 0);
    }
  }

  lemma CountedOpen(s: Session, e: Event, io: Samples, now: uint64)
    requires Lawful(s) && Readable(LinkOf(s), e) && Counts(LinkOf(s), e)
    requires WindowLaw(AfterFrame(s, e, io, now))
    ensures OpenLaw(AfterFrame(s, e, io, now))
  {
    hide Handle, Counts, Readable, Cuts, BatchLaw, Handled;
    var l, o, z := LinkOf(s), Handle(LinkOf(s), s.both.store, e, io, now), AfterFrame(s, e, io, now);
    HandleConservesQueue(l, s.both.store, e, io, now);
    assert |o.sent| + |o.link.queue| == |l.queue| + |o.enqueued|;
    ReadyIsEmpty(l, s.both.store, e, io, now);
    FramePhase(l, s.both.store, e, io, now);
    AfterFrameLink(s, e, io, now);
    if LinkOf(z).window == 0 && Open(z) <= z.strays + 42 {
      EmptyMeansStrays(Open(z), z.strays);
    }
  }

  lemma CountedBatch(s: Session, e: Event, io: Samples, now: uint64)
    requires Sound(LinkOf(s)) && BatchLaw(s) && Readable(LinkOf(s), e) && Counts(LinkOf(s), e)
    ensures BatchLaw(AfterFrame(s, e, io, now))
  {
    hide Handle, Counts, Readable, Cuts;
    ReadyIsEmpty(LinkOf(s), s.both.store, e, io, now);
    FramePhase(LinkOf(s), s.both.store, e, io, now);
  }

  lemma CountedFrameIsLawful(s: Session, e: Event, io: Samples, now: uint64)
    requires Lawful(s) && Readable(LinkOf(s), e) && Counts(LinkOf(s), e)
    ensures Lawful(AfterFrame(s, e, io, now))
  {
    hide AfterFrame, Sound, WindowLaw, OpenLaw, BatchLaw;
    ContinueIsSound(s, Received(e, io, now));
    CountedWindow(s, e, io, now);
    CountedOpen(s, e, io, now);
    CountedBatch(s, e, io, now);
  }

  lemma GreetingIsLawful(s: Session, e: Event, io: Samples, now: uint64)
    requires Lawful(s) && Readable(LinkOf(s), e) && !Counts(LinkOf(s), e)
    ensures Lawful(AfterFrame(s, e, io, now))
  {
    hide Counts, Readable, Greet, Recorded;
    GreetIsQuiet(LinkOf(s), e, now);
  }

  // ---- A flush and a tick ----

  lemma FlushWithinRoom(l: Link)
    ensures var (l', sent) := Flush(l);
            l.window <= MAX_NUM_OUTSTANDING_MESSAGES ==> l.window + |sent| <= MAX_NUM_OUTSTANDING_MESSAGES
  {
  }

  lemma EndOfReadIsLawful(s: Session)
    requires Lawful(s)
    ensures Lawful(Continue(s, EndOfRead))
  {
    hide Flush;
    ContinueIsSound(s, EndOfRead);
    var l := LinkOf(s);
    FlushConservesQueue(l);
    FlushKeepsState(l);
    FlushWithinRoom(l);
    WindowStep(l.window, Open(s), s.strays, |Flush(l).1|, 0, 0);
  }

  lemma StartSends(l: Link, st: Store, io: Samples, canEnable: bool, time: uint64, lastLoop: uint64)
    requires Sound(l) && TickSafe(l) && OnUpdate(l, st, io, canEnable, time, lastLoop).started
    ensures var u := OnUpdate(l, st, io, canEnable, time, lastLoop).outcome;
            && |u.enqueued| <= 14 && !HaveAll(u.link) && u.link.sendState == WaitingForPackets
            && (l.sendState != ReadyToSend || l.window == 0 ==> |u.sent| <= MAX_NUM_OUTSTANDING_MESSAGES)
  {
    hide InitialPackets, InitialStore;
    OpeningSize(st, io, TargetOf(l));
  }

  lemma StartTally(s: Session, io: Samples, canEnable: bool, time: uint64)
    requires Sound(LinkOf(s)) && TickSafe(LinkOf(s))
    requires OnUpdate(LinkOf(s), s.both.store, io, canEnable, time, s.lastLoop).started
    ensures var u, z := OnUpdate(LinkOf(s), s.both.store, io, canEnable, time, s.lastLoop).outcome, AfterTick(s, io, canEnable, time);
            && LinkOf(z) == u.link && z.batches == 0 && !z.cut
            && (LinkOf(s).sendState == ReadyToSend ==>
                  z.answered == s.answered && z.written == s.written + |u.sent| && z.strays == s.strays)
            && (LinkOf(s).sendState != ReadyToSend ==> z.answered == z.strays == 0 && z.written == |u.sent|)
  {
    hide OnUpdate, TickSafe, Ordered;
  }

  lemma StartIsLawful(s: Session, io: Samples, canEnable: bool, time: uint64)
    requires Lawful(s) && TickSafe(LinkOf(s)) && OnUpdate(LinkOf(s), s.both.store, io, canEnable, time, s.lastLoop).started
    ensures Lawful(AfterTick(s, io, canEnable, time))
  {
    hide OnUpdate, TickSafe, InitialPackets, Ordered, AfterTick;
    var l, u := LinkOf(s), OnUpdate(LinkOf(s), s.both.store, io, canEnable, time, s.lastLoop);
    ContinueIsSound(s, TimerTick(io, canEnable, time));
    StartTally(s, io, canEnable, time);
    UpdateConservesQueue(l, s.both.store, io, canEnable, time, s.lastLoop);
    assert |u.outcome.sent| + |u.outcome.link.queue| == |u.outcome.enqueued|;
    StartSends(l, s.both.store, io, canEnable, time, s.lastLoop);
    WindowStep(l.window, Open(s), s.strays, |u.outcome.sent|, 0, 0);
  }

  lemma IdleTickIsLawful(s: Session, io: Samples, canEnable: bool, time: uint64)
    requires Lawful(s) && TickSafe(LinkOf(s)) && !OnUpdate(LinkOf(s), s.both.store, io, canEnable, time, s.lastLoop).started
    ensures Lawful(AfterTick(s, io, canEnable, time))
  {
    hide InitialPackets, InitialStore, Ordered;
    ContinueIsSound(s, TimerTick(io, canEnable, time));
    SynchronizeIsQuiet(LinkOf(s), time);
    hide Synchronize, Continue;
  }

  lemma CallIsLawful(s: Session, c: Call)
    requires Lawful(s) && Able(s, c)
    ensures Lawful(Continue(s, c))
  {
    match c
    case Received(e, io, now) =>
      if Counts(LinkOf(s), e) {
        CountedFrameIsLawful(s, e, io, now);
      } else {
        GreetingIsLawful(s, e, io, now);
      }
    case EndOfRead => EndOfReadIsLawful(s);
    case TimerTick(io, canEnable, time) =>
      if OnUpdate(LinkOf(s), s.both.store, io, canEnable, time, s.lastLoop).started {
        StartIsLawful(s, io, canEnable, time);
      } else {
        IdleTickIsLawful(s, io, canEnable, time);
      }
  }

  // ---- Every run ----

  /** A device just added is at the start of a session. */
  function NewSession(st: Store, now: uint64, lastLoop: uint64): Session {
    Session(Attached(st, now), lastLoop, Attached(st, now).traffic.wire, 0, true, 0, 0, 0)
  }

  lemma NewSessionIsLawful(st: Store, now: uint64, lastLoop: uint64)
    ensures Lawful(NewSession(st, now, lastLoop)) && TickSafe(LinkOf(NewSession(st, now, lastLoop)))
  {
    hide Synchronize, ForgetAll;
    SynchronizeIsQuiet(NEW_LINK, now);
  }

  /** Every run from a new link is lawful, whatever was received: replies, refusals, noise, repeated or unasked for. */
  lemma {:induction false} EveryRunIsLawful(s: Session, calls: seq<Call>)
    requires Lawful(s) && AbleAll(s, calls)
    ensures Lawful(ContinueAll(s, calls))
    decreases |calls|
  {
    hide Sound, WindowLaw, OpenLaw, BatchLaw, Continue, Able;
    if calls != [] {
      CallIsLawful(s, calls[0]);
      EveryRunIsLawful(Continue(s, calls[0]), calls[1..]);
    }
  }

  // ---- The counters ----

  /** How many of the received frames are refusals, and how many are damaged. */
  function Refusals(calls: seq<Call>): nat {
    if calls == [] then 0 else (if calls[0].Received? && calls[0].event.Nack? then 1 else 0) + Refusals(calls[1..])
  }

  function Damages(calls: seq<Call>): nat {
    if calls == [] then 0 else (if calls[0].Received? && calls[0].event.Corrupt? then 1 else 0) + Damages(calls[1..])
  }

  /** The tick finds a transaction under way that is less than a second old. */
  predicate Misses(s: Session, c: Call) {
    && c.TimerTick? && LinkOf(s).ftdiDone && LinkOf(s).sendState != ReadyToSend
    && Elapsed(c.time, s.lastLoop) < 1_000_000
  }

  function MissedTicks(s: Session, calls: seq<Call>): nat
    requires Sound(LinkOf(s)) && AbleAll(s, calls)
    decreases |calls|
  {
    if calls == [] then 0
    else (if Misses(s, calls[0]) then 1 else 0) + (ContinueIsSound(s, calls[0]); MissedTicks(Continue(s, calls[0]), calls[1..]))
  }

  lemma HandleCounts(l: Link, st: Store, e: Event, io: Samples, now: uint64)
    requires Ordered(l) && Readable(l, e)
    ensures var st' := Handle(l, st, e, io, now).store;
            && st'.numNacks == st.numNacks + (if e.Nack? then 1 else 0)
            && st'.numCrcFailures == st.numCrcFailures + (if e.Corrupt? then 1 else 0)
            && st'.numMissedSendLoops == st.numMissedSendLoops
  {
    hide Recorded, Noted, Greet, Advance;
    RecordedCounts(st, e, io);
    if Counts(l, e) {
      NotedFlags(l, e);
      AdvanceCounts(Noted(l, e), Recorded(st, e, io), io);
    }
  }

  lemma RecordedCounts(st: Store, e: Event, io: Samples)
    requires e.Reply? ==> Readable(NEW_LINK, e)
    ensures var st' := Recorded(st, e, io);
            && st'.numNacks == st.numNacks + (if e.Nack? then 1 else 0)
            && st'.numCrcFailures == st.numCrcFailures + (if e.Corrupt? then 1 else 0)
            && st'.numMissedSendLoops == st.numMissedSendLoops
  {
    hide ReadInt16, ReadInt32, ScaledEncoder, RegisterOf, Confirmed;
  }

  lemma AdvanceCounts(l: Link, st: Store, io: Samples)
    requires Ordered(l)
    ensures var st' := Advance(l, st, io).store;
            && st'.numNacks == st.numNacks && st'.numCrcFailures == st.numCrcFailures
            && st'.numMissedSendLoops == st.numMissedSendLoops
  {
    hide CommandPackets, Flush;
  }

  lemma UpdateCounts(l: Link, st: Store, io: Samples, canEnable: bool, time: uint64, lastLoop: uint64)
    requires Sound(l) && TickSafe(l)
    ensures var st' := OnUpdate(l, st, io, canEnable, time, lastLoop).outcome.store;
            && st'.numNacks == st.numNacks && st'.numCrcFailures == st.numCrcFailures
            && st'.numMissedSendLoops == st.numMissedSendLoops +
               (if l.ftdiDone && l.sendState != ReadyToSend && Elapsed(time, lastLoop) < 1_000_000 then 1 else 0)
  {
    hide InitialPackets, Flush, Synchronize;
  }

  lemma CallCounts(s: Session, c: Call)
    requires Sound(LinkOf(s)) && Able(s, c)
    ensures var st, st' := s.both.store, Continue(s, c).both.store;
            && st'.numNacks == st.numNacks + Refusals([c]) && st'.numCrcFailures == st.numCrcFailures + Damages([c])
            && st'.numMissedSendLoops == st.numMissedSendLoops + if Misses(s, c) then 1 else 0
  {
    hide Handle, OnUpdate, Flush, Readable, TickSafe, Cuts, Counts;
    assert [c][1..] == [];
    match c
    case Received(e, io, now) => HandleCounts(LinkOf(s), s.both.store, e, io, now);
    case EndOfRead =>
    case TimerTick(io, canEnable, time) => UpdateCounts(LinkOf(s), s.both.store, io, canEnable, time, s.lastLoop);
  }

  /** In every run the counters tell how many refusals and damaged frames came in, and how many ticks were missed. */
  lemma {:induction false} CountersTell(s: Session, calls: seq<Call>)
    requires Sound(LinkOf(s)) && AbleAll(s, calls)
    ensures var st, st' := s.both.store, ContinueAll(s, calls).both.store;
            && st'.numNacks == st.numNacks + Refusals(calls) && st'.numCrcFailures == st.numCrcFailures + Damages(calls)
            && st'.numMissedSendLoops == st.numMissedSendLoops + MissedTicks(s, calls)
    decreases |calls|
  {
    hide Sound, Continue, Able, Misses;
    if calls != [] {
      assert [calls[0]][1..] == [];
      ContinueIsSound(s, calls[0]);
      CallCounts(s, calls[0]);
      CountersTell(Continue(s, calls[0]), calls[1..]);
    }
  }

  /**
   * What a device just added finds: no counts, no acknowledged value, everything else of the store as it was, and a
   * discover frame on the wire.
   */
  lemma NewSessionIsFresh(st: Store, now: uint64, lastLoop: uint64, r: Register, m: MotorIndex)
    requires now > 1_000_000
    ensures var z := NewSession(st, now, lastLoop);
            && z.both.traffic.wire == [Encode(Discover())]
            && z.both.store.numNacks == z.both.store.numCrcFailures == z.both.store.numMissedSendLoops == 0
            && CacheOf(z.both.store, r).lastAcked.None? && z.both.store.lastBattery == st.lastBattery
            && z.both.store.motors[m] ==
               st.motors[m].(enabled := z.both.store.motors[m].enabled, floatOn0 := z.both.store.motors[m].floatOn0)
  {
    hide Encode, Discover, Afresh, CacheOf;
    AfreshForgets(st, r, m);
    OneDirect(Discover());
    assert Synchronize(NEW_LINK, now).1 == [Discover()];
    assert [] + [Encode(Discover())] == [Encode(Discover())];
  }

  lemma AfreshForgets(st: Store, r: Register, m: MotorIndex)
    ensures var z := Afresh(st);
            && z.numNacks == z.numCrcFailures == z.numMissedSendLoops == 0
            && CacheOf(z, r).lastAcked.None? && z.lastBattery == st.lastBattery
            && z.motors[m] == st.motors[m].(enabled := z.motors[m].enabled, floatOn0 := z.motors[m].floatOn0)
  {
    ForgetAllForgets(st, r);
    hide FlagCode, PeriodCode;
    assert CacheOf(Afresh(st), r) == CacheOf(ForgetAll(st), r);
  }

  // ---- When the counter of outstanding messages is right ----

  /**
   * When the counter is right, in every run: it is the number of open frames if and only if the strays since the last
   * recovery come to a multiple of 256 and the open frames fit the uint8_t. Short of 214 strays that means none at
   * all; and then no more than eight frames are open.
   */
  lemma WindowRightIff(s: Session, calls: seq<Call>)
    requires Lawful(s) && AbleAll(s, calls)
    ensures var z := ContinueAll(s, calls);
            && Open(z) >= 0
            && (LinkOf(z).window == Open(z) <==> z.strays % 0x100 == 0 && Open(z) < 0x100)
            && (z.strays < 214 ==> (LinkOf(z).window == Open(z) <==> z.strays == 0))
            && (z.strays == 0 ==> Open(z) <= MAX_NUM_OUTSTANDING_MESSAGES)
  {
    hide ContinueAll, AbleAll, Sound, BatchLaw;
    EveryRunIsLawful(s, calls);
    var z := ContinueAll(s, calls);
    assert WindowLaw(z) && OpenLaw(z);
    StraysModulo(Open(z), z.strays);
    assert z.strays < 214 ==> Open(z) < 0x100;
  }

  lemma StraysModulo(open: nat, strays: nat)
    ensures (open - strays) % 0x100 == open <==> strays % 0x100 == 0 && open < 0x100
  {
    if strays % 0x100 == 0 {
      var stray: int := strays;
      AddModulo(-stray, open);
    }
    if (open - strays) % 0x100 == open {
      var q := (open - strays) / 0x100;
      assert strays == -0x100 * q;
    }
  }

  /**
   * When a transaction issues its batch, in every run: once it has its three replies it has issued it, and only once,
   * if and only if no answer cut it short.
   */
  lemma BatchIssuedIff(s: Session, calls: seq<Call>)
    requires Lawful(s) && AbleAll(s, calls)
    ensures var z := ContinueAll(s, calls);
            && z.batches <= 1
            && (z.batches == 1 <==> !z.cut && LinkOf(z).sendState != WaitingForPackets)
            && (HaveAll(LinkOf(z)) ==> (z.batches == 1 <==> !z.cut))
  {
    hide ContinueAll, AbleAll, Sound, WindowLaw, OpenLaw, HaveAll;
    EveryRunIsLawful(s, calls);
  }

  /** With the counter right, a transaction is cut only by the answer to its last open frame, with nothing left to write. */
  lemma CutAnswersAll(s: Session, e: Event, io: Samples, now: uint64)
    requires Lawful(s) && Readable(LinkOf(s), e) && Cuts(LinkOf(s), e) && s.strays == 0 && !IsStray(s, e)
    ensures var z := Continue(s, Received(e, io, now));
            z.cut && Open(z) == 0 && LinkOf(z).queue == [] && LinkOf(z).sendState == ReadyToSend
  {
    hide Handle, Readable, Counts, HaveAll;
    CallIsLawful(s, Received(e, io, now));
    FramePhase(LinkOf(s), s.both.store, e, io, now);
    HandleConservesQueue(LinkOf(s), s.both.store, e, io, now);
  }
}
