/** Evidence suffices: from every evident power cycle some answers and ticks make the daemon act on it. */
module Remedies {
  import opened Batches
  import opened Bytes
  import opened Evidence
  import opened Messages
  import opened Protocol
  import opened Replies
  import opened Steps
  import opened Stores
  import opened Transactions
  import opened World
  import opened Wrappers

  /** Neither a new power cycle nor a new device. */
  predicate NoNews(s: Step) {
    !s.PowerCycle? && !s.Reconnect?
  }

  /** The run makes the daemon act on the power cycle: a batch is issued with the flag. */
  ghost predicate ActsOn(w: World, steps: seq<Step>)
    requires Inv(w)
  {
    AllEnabled(w, steps) && (forall s :: s in steps ==> NoNews(s)) && !Run(w, steps).unacted
  }

  lemma OneMoreStep(w: World, s: Step, rest: seq<Step>)
    requires Inv(w) && Enabled(w, s) && NoNews(s) && ActsOn(Next(w, s), rest)
    ensures ActsOn(w, [s] + rest)
  {
    hide Inv, Enabled, Next, NoNews;
    assert ([s] + rest)[1..] == rest;
  }

  lemma NothingToDo(w: World)
    requires Inv(w) && !w.unacted
    ensures ActsOn(w, [])
  {
    hide Inv;
  }

  // ---- A transaction on its way to the batch ----

  /** The status request is still to be worked off. */
  predicate StatusPending(w: World) {
    exists i: nat :: w.processed <= i < |w.log| && w.log[i].number == MESSAGE_MODULE_STATUS
  }

  /** The batch can still come, and the flag gets into it. */
  ghost predicate Hopeful(w: World) {
    w.unacted && Promising(w) && (Told(w) || (w.device.raised && StatusPending(w)))
  }

  /** How many of the three replies are missing. */
  function Missing(w: World): nat {
    (if w.link.haveBattery then 0 else 1) + (if w.link.haveBulk then 0 else 1) + (if w.link.haveStatus then 0 else 1)
  }

  function ToWorkOff(w: World): int {
    |w.dead| + w.written - w.processed
  }

  /** A reply long enough for every branch, with the hub's flag where the status reply has it. */
  function GoodReply(w: World): Event
    requires w.processed < |w.log|
  {
    Reply(w.log[w.processed].number, [if w.device.raised then 1 else 0] + seq(25, i => 0))
  }

  lemma GoodReplyFits(w: World)
    requires w.dead == [] && w.processed < w.written <= |w.log|
    ensures CanProcess(w, true, Some(GoodReply(w)))
  {
    hide Interpret;
  }

  lemma DeadKeepsHope(w: World)
    requires Hopeful(w) && w.dead != []
    ensures var z := ProcessDead(w, false);
            Hopeful(z) && Missing(z) == Missing(w) && ToWorkOff(z) < ToWorkOff(w)
  {
    var z := ProcessDead(w, false);
    forall i ensures Reported(z, i) <==> Reported(w, i) {
    }
    forall i: nat ensures Pending(z, i) <==> Pending(w, i) {
    }
  }

  /** The hub reads its status when it works off the status request. */
  lemma StatusIsRead(w: World)
    requires LogInv(w) && w.dead == [] && w.processed < |w.log| && w.log[w.processed].number == MESSAGE_MODULE_STATUS
    ensures ReadsStatus(w)
  {
    hide Interpret;
    assert Understood(w.hub, w.log[w.processed]);
  }

  lemma LiveKeepsHope(w: World)
    requires FlowInv(w) && LogInv(w) && Hopeful(w) && w.dead == [] && w.processed < w.written <= |w.log|
    ensures CanProcess(w, true, Some(GoodReply(w)))
    ensures var z := ProcessLive(w, true, Some(GoodReply(w)));
            Hopeful(z) && Missing(z) == Missing(w) && ToWorkOff(z) < ToWorkOff(w)
  {
    hide Coming, Told, Interpret, FlowInv, LogInv, Fits, StatusFits, GoodReply;
    GoodReplyFits(w);
    var answer := Some(GoodReply(w));
    ReplyIsReply(w);
    ToldAfterProcess(w, true, answer);
    ComingAfterProcess(w, true, answer, MESSAGE_BATTERY_VOLTAGE);
    ComingAfterProcess(w, true, answer, MESSAGE_BULK_INPUT);
    if w.log[w.processed].number == MESSAGE_MODULE_STATUS {
      StatusIsRead(w);
    } else if ReadsStatus(w) {
      StatusIsNotNeeded(w);
    }
  }

  lemma ReplyIsReply(w: World)
    requires w.processed < |w.log|
    ensures IsReply(Some(GoodReply(w)))
  {
  }

  // ---- Taking in a reply that is missing ----

  /** A reply under way to one of the three requests, not yet taken in. */
  predicate IsMissing(w: World, i: nat) {
    && i in w.outbox && w.outbox[i].Reply?
    && var n := w.outbox[i].reference;
       || (n == MESSAGE_BATTERY_VOLTAGE && !w.link.haveBattery)
       || (n == MESSAGE_BULK_INPUT && !w.link.haveBulk)
       || (n == MESSAGE_MODULE_STATUS && !w.link.haveStatus)
  }

  /** With all written frames worked off, a missing reply is under way. */
  lemma ComingIsUnderWay(w: World, number: int) returns (i: nat)
    requires Core(w) && w.link.sendState == WaitingForPackets && Coming(w, number) && IsAwaited(number)
    requires w.processed == w.written
    ensures i in w.outbox && w.outbox[i].Reply? && w.outbox[i].reference as int == number
  {
    hide FlowInv, HandshakeInv, PhaseInv, LogInv, CacheInv, EncoderInv, SampleInv;
    i :| i < |w.log| && w.log[i].number as int == number && Pending(w, i);
    AnswerShape(w, i);
  }

  lemma MissingReply(w: World) returns (i: nat)
    requires Inv(w) && Hopeful(w) && w.processed == w.written
    ensures IsMissing(w, i)
  {
    hide Core, Coming;
    if !w.link.haveBattery {
      i := ComingIsUnderWay(w, MESSAGE_BATTERY_VOLTAGE);
    } else if !w.link.haveBulk {
      i := ComingIsUnderWay(w, MESSAGE_BULK_INPUT);
    } else {
      StatusIsWritten(w);
      i :| Reported(w, i);
    }
  }

  lemma StatusIsWritten(w: World)
    requires Core(w) && w.link.sendState == WaitingForPackets && w.processed == w.written
    ensures !StatusPending(w)
  {
    hide FlowInv, HandshakeInv, PhaseInv, LogInv, CacheInv, EncoderInv, SampleInv;
  }

  /** Taking it in releases the batch with the flag, or keeps the hope and leaves one less missing. */
  lemma AnswerKeepsHope(w: World, i: nat, io: Samples, now: uint64)
    requires Inv(w) && Hopeful(w) && Told(w) && IsMissing(w, i) && CanDeliver(w, Queued(i, io, now))
    ensures var z := DeliverOne(w, Queued(i, io, now));
            !z.unacted || (Hopeful(z) && Told(z) && Missing(z) < Missing(w))
  {
    hide Deliver, RestInv, FlowInv, HandshakeInv, PhaseInv, CacheInv, EncoderInv, SampleInv, StatusInv, LogInv, Coming,
         Told, Readable;
    DeliverKeepsInv(w, Queued(i, io, now));
    var z := Deliver(w, Queued(i, io, now));
    AnswerAndFlags(w, i, io, now);
    AnswerEffects(w, i, io, now);
    ToldAfter(w, z, i);
    if z.batches == w.batches {
      ComingAfter(w, z, i, MESSAGE_BATTERY_VOLTAGE);
      ComingAfter(w, z, i, MESSAGE_BULK_INPUT);
      if w.link.queue == [] && w.link.window == 1 {
        CutBreaksNoPromise(w, z, i);
      }
    }
  }

  lemma FlushKeepsHope(w: World, z: World)
    requires z == w.(link := z.link, written := z.written, open := z.open)
    requires z.link == w.link.(queue := z.link.queue, window := z.link.window)
    ensures z.unacted == w.unacted && Missing(z) == Missing(w)
    ensures Hopeful(w) ==> Hopeful(z)
  {
    forall i ensures Reported(z, i) <==> Reported(w, i) {
    }
    forall i: nat ensures Pending(z, i) <==> Pending(w, i) {
    }
  }

  lemma SinglePick(w: World, pick: Pick)
    requires Inv(w) && CanDeliver(w, pick)
    ensures AllDeliverable(w, [pick]) && DeliverAll(w, [pick]) == DeliverOne(w, pick)
  {
    hide Inv, DeliverOne, CanDeliver;
    var v := DeliverOne(w, pick);
    assert [pick][1..] == [] && AllDeliverable(v, []) && DeliverAll(v, []) == v;
  }

  lemma ReadKeepsHope(w: World, i: nat)
    requires Inv(w) && Hopeful(w) && Told(w) && IsMissing(w, i)
    ensures Enabled(w, Read([Queued(i, w.sampled, 0)]))
    ensures var z := Next(w, Read([Queued(i, w.sampled, 0)]));
            !z.unacted || (Hopeful(z) && Missing(z) < Missing(w))
  {
    hide Core, RestInv, Hopeful, Told, DeliverOne, Flush, Flushed, Missing;
    AnswerInLog(w, i);
    var pick := Queued(i, w.sampled, 0);
    AnswerKeepsHope(w, i, w.sampled, 0);
    var v := DeliverOne(w, pick);
    SinglePick(w, pick);
    FlushedFields(v);
    FlushKeepsHope(v, Flushed(v));
  }

  lemma AnswerInLog(w: World, i: nat)
    requires Core(w) && i in w.outbox
    ensures i < |w.log|
  {
    hide FlowInv, HandshakeInv, PhaseInv, StatusInv, LogInv, CacheInv, EncoderInv, SampleInv;
    AnswerShape(w, i);
  }

  lemma FlowParts(w: World)
    requires Core(w)
    ensures w.processed <= w.written <= |w.log| && FlowInv(w) && LogInv(w)
  {
    hide HandshakeInv, PhaseInv, StatusInv, LogInv, CacheInv, EncoderInv, SampleInv, Interval;
  }

  /** One step nearer to the batch. */
  lemma NextHope(w: World) returns (s: Step)
    requires Inv(w) && Hopeful(w)
    ensures Enabled(w, s) && NoNews(s)
    ensures var z := Next(w, s);
            !z.unacted || (Hopeful(z) && (Missing(z) < Missing(w) || (Missing(z) == Missing(w) && ToWorkOff(z) < ToWorkOff(w))))
    ensures ToWorkOff(w) >= 0
  {
    hide Core, RestInv, Told, Coming, FlowInv, LogInv, DeliverAll, Flushed, Missing, GoodReply, StatusPending, ProcessLive,
         ProcessDead, IsMissing;
    FlowParts(w);
    if w.dead != [] {
      s := Process(false, None);
      DeadKeepsHope(w);
    } else if w.processed < w.written {
      s := Process(true, Some(GoodReply(w)));
      LiveKeepsHope(w);
    } else {
      var i := MissingReply(w);
      s := Read([Queued(i, w.sampled, 0)]);
      StatusIsWritten(w);
      ReadKeepsHope(w, i);
    }
  }

  lemma {:induction false} HopefulActs(w: World) returns (steps: seq<Step>)
    requires Inv(w) && Hopeful(w)
    ensures ActsOn(w, steps)
    decreases Missing(w), ToWorkOff(w)
  {
    hide Inv, Hopeful, Missing, ToWorkOff, Enabled, Next, ActsOn;
    var s := NextHope(w);
    var z := Next(w, s);
    if z.unacted {
      var rest := HopefulActs(z);
      steps := [s] + rest;
      OneMoreStep(w, s, rest);
    } else {
      NothingToDo(z);
      steps := [s] + [];
      OneMoreStep(w, s, []);
    }
  }

  // ---- From the hub's flag to such a transaction ----

  /** With the handshake over, some tick starts a transaction whose status request reads the flag. */
  lemma StartingTick(w: World) returns (s: Step)
    requires Inv(w) && w.link.ftdiDone && w.unacted && w.device.raised
    ensures Enabled(w, s) && NoNews(s) && Hopeful(Next(w, s))
  {
    hide Core, RestInv, Tick, Hopeful;
    var time := if w.link.sendState == ReadyToSend then 0 else (w.lastLoop + RECOVERY_TIMEOUT) % 0x1_0000_0000_0000_0000;
    LaterBy(w.lastLoop, RECOVERY_TIMEOUT);
    assert Starts(w.link, time, w.lastLoop);
    s := Timer(w.sampled, false, time);
    StartIsHopeful(w, w.sampled, false, time);
  }

  lemma LaterBy(since: uint64, delta: uint64)
    ensures Elapsed((since + delta) % 0x1_0000_0000_0000_0000, since) == delta
  {
  }

  lemma StartIsHopeful(w: World, io: Samples, canEnable: bool, time: uint64)
    requires Inv(w) && Starts(w.link, time, w.lastLoop) && w.unacted && w.device.raised
    ensures Hopeful(Tick(w, io, canEnable, time))
  {
    hide PhaseInv, StatusInv, RestInv, LogInv, CacheInv, EncoderInv, SampleInv, Interval, Told, Opened, Hopeful;
    TickOpens(w, io, canEnable, time);
    OpenedFields(w, io, canEnable, time);
    OpenedLink(w.link, w.store, io, canEnable);
    OpenedDevice(w, io, canEnable, time);
    OpeningBatch(w.store, io, TargetOf(w.link));
    hide InitialPackets, InitialStore, Flush, Opening, OnUpdate, Tick, Understood, Distinct;
    FreshIsHopeful(Opened(w, io, canEnable, time));
  }

  lemma OpenedDevice(w: World, io: Samples, canEnable: bool, now: uint64)
    requires w.processed <= w.written <= |w.log| && w.link.address.Some? && w.link.interfaceId.Some?
    ensures var w' := Opened(w, io, canEnable, now); w'.device == w.device && w'.unacted == w.unacted
  {
    hide InitialPackets, InitialStore, Flush, Opening, Interval;
  }

  lemma FreshIsHopeful(w: World)
    requires w.unacted && w.device.raised && w.link.sendState == WaitingForPackets && w.processed == 0
    requires Holds(w.log, MESSAGE_MODULE_STATUS) && Holds(w.log, MESSAGE_BATTERY_VOLTAGE) && Holds(w.log, MESSAGE_BULK_INPUT)
    ensures Hopeful(w)
  {
    hide Told;
    assert forall i: nat :: Pending(w, i);
  }

  // ---- The handshake ----

  /** How many of the handshake facts are missing. */
  function Unknown(l: Link): nat {
    (if l.address.None? then 1 else 0) + (if l.interfaceId.None? then 1 else 0) + (if l.ftdiDone then 0 else 1)
  }

  ghost predicate SameDevice(w: World, z: World) {
    z.device == w.device && z.unacted == w.unacted
  }

  /** The request that is due. */
  function Due(l: Link): byte {
    if l.address.None? then MESSAGE_DISCOVER
    else if l.interfaceId.None? then MESSAGE_QUERY_INTERFACE
    else MESSAGE_FTDI_RESET_CONTROL
  }

  function DueReply(l: Link, hub: Target): Event {
    if l.address.None? then DiscoverReply(hub.address, [1])
    else if l.interfaceId.None? then InterfaceReply([LowByte(hub.interfaceId), HighByte(hub.interfaceId)])
    else FtdiAck
  }

  /** Some tick makes the request that is due. */
  lemma AskingTick(w: World) returns (s: Step)
    requires Inv(w) && !w.link.ftdiDone
    ensures Enabled(w, s) && NoNews(s)
    ensures var z := Next(w, s);
            && SameDevice(w, z) && Due(w.link) as int in Numbers(z.asked)
            && z.link == w.link.(discoverStart := z.link.discoverStart)
  {
    hide Core, RestInv, Tick;
    var time := (w.link.discoverStart + (MESSAGE_TIMEOUT + 1)) % 0x1_0000_0000_0000_0000;
    LaterBy(w.link.discoverStart, MESSAGE_TIMEOUT + 1);
    s := Timer(w.sampled, false, time);
    AskedIsDue(w, time);
  }

  lemma AskedIsDue(w: World, time: uint64)
    requires Inv(w) && !w.link.ftdiDone && Elapsed(time, w.link.discoverStart) > MESSAGE_TIMEOUT
    ensures var z := Tick(w, w.sampled, false, time);
            && SameDevice(w, z) && Due(w.link) as int in Numbers(z.asked)
            && z.link == w.link.(discoverStart := z.link.discoverStart)
  {
    hide RestInv, WindowFlow, PhaseInv, LogInv, CacheInv, EncoderInv, SampleInv, StatusInv, Interval, SendInitial;
    var u := OnUpdate(w.link, w.store, w.sampled, false, time, w.lastLoop);
    AbsorbQuietly(w, u.outcome, w.sampled);
    NumbersOfOne(u.outcome.direct);
    NumbersJoin(w.asked, u.outcome.direct);
    hide Numbers, Absorb;
  }

  /** Its reply teaches the fact. */
  lemma TeachingRead(w: World) returns (s: Step)
    requires Inv(w) && !w.link.ftdiDone && Due(w.link) as int in Numbers(w.asked)
    ensures Enabled(w, s) && NoNews(s)
    ensures var z := Next(w, s); SameDevice(w, z) && Unknown(z.link) < Unknown(w.link)
  {
    hide Core, RestInv, DeliverOne, Flush, Flushed, Numbers, HandshakeFits, DueReply;
    assert HandshakeInv(w) by { HandshakePart(w); }
    var pick := Handshake(Due(w.link), DueReply(w.link, w.hub), w.sampled, 0);
    DueReplyFits(w);
    s := Read([pick]);
    GreetingOnWire(w, pick);
    DueIsTaught(w, pick);
    var v := DeliverOne(w, pick);
    SinglePick(w, pick);
    FlushedFields(v);
  }

  lemma DueReplyFits(w: World)
    requires HandshakeInv(w) && Due(w.link) as int in Numbers(w.asked) && !w.link.ftdiDone
    ensures HandshakeFits(w, Due(w.link), DueReply(w.link, w.hub))
  {
    hide Interpret, Understood, ReadUint16, LowByte, HighByte, InStages;
    LittleEndianRoundTrip(w.hub.interfaceId);
    var p :| p in w.asked && p.number as int == Due(w.link) as int;
    NumberTellsAction(w.hub, p);
  }

  lemma DueIsTaught(w: World, pick: Pick)
    requires Inv(w) && CanDeliver(w, pick) && !w.link.ftdiDone
    requires pick == Handshake(Due(w.link), DueReply(w.link, w.hub), pick.io, pick.now)
    ensures Unknown(DeliverOne(w, pick).link) < Unknown(w.link)
  {
    hide Core, RestInv, Handle, HandshakeFits, DueReply;
    DeliverKeepsInv(w, pick);
    DueTeaches(w.link, w.store, w.hub, pick.io, pick.now);
  }

  lemma HandshakePart(w: World)
    requires Core(w)
    ensures HandshakeInv(w)
  {
    hide FlowInv, HandshakeInv, PhaseInv, StatusInv, LogInv, CacheInv, EncoderInv, SampleInv;
  }

  lemma DueTeaches(l: Link, st: Store, hub: Target, io: Samples, now: uint64)
    requires Ordered(l) && !l.ftdiDone
    ensures Readable(l, DueReply(l, hub)) && Unknown(Handle(l, st, DueReply(l, hub), io, now).link) < Unknown(l)
  {
    hide Advance, Synchronize, ReadUint16, Recorded, Noted;
    SynchronizeIsQuiet(Taught(l, DueReply(l, hub)), now);
  }

  lemma {:induction false} AnyHandshakeActs(w: World) returns (steps: seq<Step>)
    requires Inv(w) && w.unacted && w.device.raised
    ensures ActsOn(w, steps)
    decreases Unknown(w.link)
  {
    hide Inv, Hopeful, Enabled, Next, ActsOn, Numbers, NoNews;
    if w.link.ftdiDone {
      var s := StartingTick(w);
      var rest := HopefulActs(Next(w, s));
      steps := [s] + rest;
      OneMoreStep(w, s, rest);
    } else {
      var s := AskingTick(w);
      var v := Next(w, s);
      var r := TeachingRead(v);
      var rest := AnyHandshakeActs(Next(v, r));
      OneMoreStep(v, r, rest);
      steps := [s] + ([r] + rest);
      OneMoreStep(w, s, [r] + rest);
    }
  }

  // ---- What evidence is ----

  /**
   * Evidence is exactly the possibility of a remedy: a power cycle not acted on is evident if and only if some run of
   * answers and ticks, with no new power cycle and no new device, makes the daemon issue a batch with the flag.
   */
  lemma EvidentIff(w: World)
    requires Inv(w) && w.unacted
    ensures Evident(w) <==> exists steps :: ActsOn(w, steps)
  {
    hide Inv, ActsOn, Promising, Told;
    if w.device.raised {
      var steps := AnyHandshakeActs(w);
    } else if Evident(w) {
      var steps := HopefulActs(w);
    } else {
      forall steps ensures !ActsOn(w, steps) { NoRemedy(w, steps); }
    }
  }

  lemma NoRemedy(w: World, steps: seq<Step>)
    requires Inv(w) && Lost(w)
    ensures !ActsOn(w, steps)
  {
    hide Inv, Evident, Run;
    if AllEnabled(w, steps) && forall s :: s in steps ==> NoNews(s) {
      LostStaysLost(w, steps);
    }
  }
}
