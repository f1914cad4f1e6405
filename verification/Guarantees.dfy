/** What holds of every run of the daemon against a hub. */
module Guarantees {
  import opened Batches
  import opened Bytes
  import opened Messages
  import opened Protocol
  import opened Replies
  import opened Steps
  import opened Stores
  import opened World
  import opened Wrappers

  // ---- The cache agrees with the hub ----

  /**
   * Whatever is lost, refused, corrupted or recovered from: a value a cache holds as acknowledged is the value in the
   * hub's register, unless the hub lost power and no command batch has acted on that yet.
   */
  lemma CacheCoherence(w: World, steps: seq<Step>, r: Register, v: int)
    requires Inv(w) && AllEnabled(w, steps)
    requires CacheOf(Run(w, steps).store, r).lastAcked == Some(v)
    ensures Run(w, steps).unacted || Run(w, steps).device.registers(r) == v
  {
    hide Run, FlowInv, HandshakeInv, PhaseInv, LogInv, SampleInv, EncoderInv, CacheOf;
    var z := Run(w, steps);
    assert CacheTrue(z, r);
  }

  /** A command is suppressed only when the hub's register already holds the wanted value, or a power cycle is pending. */
  lemma SuppressionIsSafe(w: World, steps: seq<Step>, io: Samples, canEnable: bool, r: Register)
    requires Inv(w) && AllEnabled(w, steps)
    ensures var z := Run(w, steps);
            var code := SampledCode(io, canEnable, r);
            !Holds(CommandPackets(z.store, io, canEnable, false, z.hub), NumberOf(r)) ==>
              Suppressed(r, code) || z.unacted || z.device.registers(r) == code
  {
    var z := Run(w, steps);
    var t := z.hub;
    assert CacheTrue(z, r) by { hide Run, CacheOf; }
    CommandBatch(z.store, io, canEnable, false, t);
    CommandCaches(z.store, io, canEnable, false, r);
    hide Run, Inv, CacheOf, CommandPackets, CommandStore, SampledCode, Suppressed, Holds, GoodPhase;
  }

  // ---- Window and stalls ----

  /** The counter of outstanding messages is the number of written frames not yet answered; it never exceeds eight or wraps. */
  lemma WindowIsExact(w: World, steps: seq<Step>)
    requires Inv(w) && AllEnabled(w, steps)
    ensures var z := Run(w, steps);
            && z.link.window == |z.open| <= MAX_NUM_OUTSTANDING_MESSAGES
            && (forall i :: i in z.open ==> i < z.written)
            && z.link.queue == z.log[z.written..]
  {
    hide Run, HandshakeInv, PhaseInv, LogInv, CacheInv, SampleInv, EncoderInv, Interval;
  }

  /** Nothing more could be written now. */
  predicate AtRest(w: World) {
    w.link.queue == [] || w.link.window == MAX_NUM_OUTSTANDING_MESSAGES
  }

  lemma TickEndsAtRest(w: World, io: Samples, canEnable: bool, time: uint64)
    requires Inv(w) && AtRest(w)
    ensures AtRest(Tick(w, io, canEnable, time))
  {
    hide RestInv, LogInv, CacheInv, EncoderInv, SampleInv, PhaseInv, StatusInv, Interval, WindowFlow, Unwritten;
    var u := OnUpdate(w.link, w.store, io, canEnable, time, w.lastLoop);
    if u.started {
      TickOpens(w, io, canEnable, time);
      hide OnUpdate, Tick, Opened;
      OpenedFlow(w, io, canEnable, time);
    } else {
      QuietUpdate(w.link, w.store, io, canEnable, time, w.lastLoop);
      AbsorbQuietly(w, u.outcome, io);
      hide OnUpdate, Absorb;
    }
  }

  lemma StepEndsAtRest(w: World, s: Step)
    requires Inv(w) && AtRest(w) && Enabled(w, s)
    ensures AtRest(Next(w, s))
  {
    hide Core, RestInv, Tick, DeliverAll, Flushed, Reconnected;
    match s
    case Timer(io, canEnable, time) => TickEndsAtRest(w, io, canEnable, time);
    case Process(_, _) =>
    case Read(picks) => FlushEndsAtRest(DeliverAll(w, picks));
    case PowerCycle(_) =>
    case Reconnect(values, flag, start, hub) => NewDeviceRests(w, values, flag, start, hub);
  }

  lemma FlushEndsAtRest(w: World)
    requires Core(w)
    ensures AtRest(Flushed(w))
  {
    hide Flushed, FlowInv, HandshakeInv, PhaseInv, StatusInv, LogInv, CacheInv, EncoderInv, SampleInv;
    FlushedFlow(w);
  }

  lemma NewDeviceRests(w: World, values: Register -> int, flag: bool, start: uint64, hub: Target)
    ensures AtRest(Reconnected(w, values, flag, start, hub))
  {
    hide Synchronize;
    SynchronizeIsQuiet(NEW_LINK, start);
  }

  lemma {:induction false} RunEndsAtRest(w: World, steps: seq<Step>)
    requires Inv(w) && AtRest(w) && AllEnabled(w, steps)
    ensures AtRest(Run(w, steps))
    decreases |steps|
  {
    hide Inv, Enabled, Next, AtRest;
    if steps != [] {
      StepEndsAtRest(w, steps[0]);
      RunEndsAtRest(Next(w, steps[0]), steps[1..]);
    }
  }

  /** While a transaction is under way, at least one written frame is unanswered: the daemon never waits for nothing. */
  lemma NoStall(w: World, steps: seq<Step>)
    requires Inv(w) && AtRest(w) && AllEnabled(w, steps)
    ensures var z := Run(w, steps); z.link.sendState != ReadyToSend <==> z.open != {}
  {
    hide Run, HandshakeInv, PhaseInv, LogInv, CacheInv, SampleInv, EncoderInv, WindowFlow, Unwritten;
    RunEndsAtRest(w, steps);
    RestingWaits(Run(w, steps));
  }

  lemma RestingWaits(w: World)
    requires FlowInv(w) && RestInv(w) && AtRest(w)
    ensures w.link.sendState != ReadyToSend <==> w.open != {}
  {
    hide WindowFlow, Unwritten;
    if w.open == {} {
      EmptyWindow(w);
    }
  }

  lemma EmptyWindow(w: World)
    requires WindowFlow(w.written, w.processed, w.open, w.outbox.Keys, w.link.window) && w.open == {}
    ensures w.link.window == 0
  {
  }

  // ---- How a transaction begins ----

  /**
   * Every transaction, also one that recovers, begins with a window that is empty: its first frames go out at once,
   * the keep-alive first, up to eight of them, and nothing else is on the way to be answered.
   */
  lemma KeepAliveGoesFirst(w: World, io: Samples, canEnable: bool, time: uint64)
    requires Inv(w) && OnUpdate(w.link, w.store, io, canEnable, time, w.lastLoop).started
    ensures var z := Next(w, Timer(io, canEnable, time));
            && |z.log| >= 4 && z.log[0] == KeepAlive(TargetOf(w.link))
            && z.written == (if |z.log| < 8 then |z.log| else 8) && z.processed == 0
            && z.open == Interval(0, z.written) && z.outbox == map[]
  {
    hide PhaseInv, StatusInv, RestInv, LogInv, CacheInv, EncoderInv, SampleInv, Flush, InitialStore, Distinct, Holds,
         Understood, Interval, FlushCount;
    TickOpens(w, io, canEnable, time);
    OpeningBatch(w.store, io, TargetOf(w.link));
    FlushWithinWindow(Opening(w.link, w.store, io, canEnable));
    OpeningStartsWith(w.store, io, TargetOf(w.link));
    hide InitialPackets;
  }

  lemma OpeningStartsWith(st: Store, io: Samples, t: Target)
    ensures InitialPackets(st, io, t) != [] && InitialPackets(st, io, t)[0] == KeepAlive(t)
  {
  }

  // ---- The command batch ----

  /** Whether the transaction's battery, bulk and status requests have all been answered by a reply. */
  predicate AllThreeReplied(w: World) {
    && MESSAGE_BATTERY_VOLTAGE as int in w.replied
    && MESSAGE_BULK_INPUT as int in w.replied
    && MESSAGE_MODULE_STATUS as int in w.replied
  }

  /**
   * A transaction issues at most one command batch, and it has issued it exactly when the battery, bulk and status
   * requests have all had a reply, in any order; the reset flag it worked with is the one its own status reply carried.
   */
  lemma BatchExactlyOnce(w: World, steps: seq<Step>)
    requires Inv(w) && AllEnabled(w, steps)
    ensures var z := Run(w, steps);
            && z.batches <= 1
            && (z.batches == 1 <==> AllThreeReplied(z))
            && (z.batches == 1 ==> z.link.deviceReset == z.statusRead)
  {
    hide Run, FlowInv, HandshakeInv, LogInv, CacheInv, SampleInv, EncoderInv;
  }

  lemma RegisterFrame(w: World, r: Register, i: nat)
    requires LogInv(w) && i < |w.log| && w.log[i].number == NumberOf(r)
    ensures ActionOf(w, w.log[i]).Write? && ActionOf(w, w.log[i]).register == r
  {
    NumberingTiesReplyToRegister(r, w.log[i].number);
    assert Understood(w.hub, w.log[i]);
    var a := ActionOf(w, w.log[i]);
    hide Interpret, LogInv;
    if a.Write? {
      NumberingTiesReplyToRegister(a.register, w.log[i].number);
    }
  }

  /** The command for this register, if the transaction has one, was answered by a reply. */
  predicate Replied(w: World, r: Register) {
    Holds(w.log, NumberOf(r)) ==> NumberOf(r) as int in w.replied
  }

  /**
   * Once a transaction has issued its batch, every register whose command was not left unanswered or refused is at the
   * value the batch sampled, whether a frame was sent for it or not, whatever became of all other frames and also while
   * the transaction is still under way; only frame periods of 0 and 1 are never sent.
   */
  lemma BatchConverges(w: World, steps: seq<Step>, r: Register)
    requires Inv(w) && AllEnabled(w, steps)
    requires var z := Run(w, steps); z.batches == 1 && !z.unacted && Replied(z, r)
    ensures var z := Run(w, steps);
            var code := SampledCode(z.sampled, z.allowed, r);
            Suppressed(r, code) || z.device.registers(r) == code
  {
    hide Run, Inv, Replied, SampledCode, Suppressed, CacheOf;
    var z := Run(w, steps);
    HeldAfterBatch(z, r);
    RegisterTrue(z, r);
  }

  /**
   * After a batch a register that can be sent is held as acknowledged, and then at the sampled value, if and only if
   * its command was left out or had a reply; the cache of any other is empty.
   */
  lemma HeldAfterBatch(w: World, r: Register)
    requires Inv(w) && w.batches == 1
    ensures var c, code := CacheOf(w.store, r).lastAcked, SampledCode(w.sampled, w.allowed, r);
            && (c.Some? ==> c == Some(code))
            && (!Suppressed(r, code) ==> (c.Some? <==> Replied(w, r)))
  {
    hide FlowInv, HandshakeInv, PhaseInv, RestInv, StatusInv, EncoderInv, CacheOf, Interpret, SampledCode, Suppressed,
         LogInv;
    AllowedIsEnabled(w);
    assert SampleTrue(w, r);
    if Holds(w.log, NumberOf(r)) {
      var i: nat :| i < |w.log| && w.log[i].number == NumberOf(r);
      RegisterFrame(w, r, i);
      assert FrameTrue(w, i);
    }
  }

  /** The link knows what the tick that started the transaction said of the enable input. */
  lemma AllowedIsEnabled(w: World)
    requires PhaseInv(w)
    ensures w.link.canEnable == w.allowed
  {
  }

  lemma RegisterTrue(w: World, r: Register)
    requires Inv(w)
    ensures CacheTrue(w, r)
  {
    hide FlowInv, HandshakeInv, PhaseInv, RestInv, StatusInv, EncoderInv, LogInv, SampleInv, CacheTrue;
  }

  /** An enable is sent as 1 only in a transaction that was started with enabling allowed. */
  lemma EnableOnlyWhenAllowed(w: World, steps: seq<Step>, i: nat)
    requires Inv(w) && AllEnabled(w, steps) && i < |Run(w, steps).log|
    ensures var z := Run(w, steps);
            var a := ActionOf(z, z.log[i]);
            a.Write? && IsEnable(a.register) && a.value != 0 ==> z.allowed
  {
    hide Run, Core, RestInv, ActionOf;
    EnableFrames(Run(w, steps), i);
  }

  lemma EnableFrames(w: World, i: nat)
    requires Core(w) && i < |w.log|
    ensures var a := ActionOf(w, w.log[i]);
            a.Write? && IsEnable(a.register) && a.value != 0 ==> w.allowed
  {
    hide Interpret, FlowInv, HandshakeInv, StatusInv, CacheInv, EncoderInv, SampleTrue, Understood, Distinct;
    if w.batches == 1 {
      assert FrameSampled(w, w.log[i]);
    } else {
      OpeningFramesWriteNothing(w, i);
    }
  }

  /** In a disabled transaction that has issued its batch every enable whose command was left out or had a reply is off. */
  lemma DisabledMeansOff(w: World, steps: seq<Step>, r: Register)
    requires Inv(w) && AllEnabled(w, steps) && IsEnable(r)
    requires var z := Run(w, steps); z.batches == 1 && !z.unacted && Replied(z, r) && !z.allowed
    ensures Run(w, steps).device.registers(r) == 0
  {
    hide Run, Inv, Replied;
    BatchConverges(w, steps, r);
  }

  // ---- Encoder resets ----

  /**
   * At least once, for the connected device: the hub zeroed a motor's encoder in the transaction that observed the
   * last reset request made since it was added, or in a later one, or the request is still open; and an open request is
   * sent again in every transaction.
   */
  lemma EncoderResetAtLeastOnce(w: World, steps: seq<Step>, m: MotorIndex)
    requires Inv(w) && AllEnabled(w, steps)
    ensures var z := Run(w, steps);
            && (z.requested[m] <= z.device.zeroed[m] || z.store.motors[m].doReset)
            && z.requested[m] <= z.transaction
  {
    hide Run, FlowInv, HandshakeInv, PhaseInv, LogInv, CacheInv, SampleInv;
  }

  lemma OpenRequestIsSent(w: World, io: Samples, canEnable: bool, time: uint64, m: MotorIndex)
    requires Inv(w) && OnUpdate(w.link, w.store, io, canEnable, time, w.lastLoop).started
    ensures var z := Next(w, Timer(io, canEnable, time));
            && (io.motors[m].resetTime != w.observed[m] ==> z.requested[m] == z.transaction)
            && (z.store.motors[m].doReset <==> w.store.motors[m].doReset || io.motors[m].resetTime != w.observed[m])
            && (z.store.motors[m].doReset <==> Holds(z.log, MESSAGE_MOTOR_RESET_ENCODER_0 + m))
            && z.observed[m] == io.motors[m].resetTime && z.transaction == w.transaction + 1
  {
    hide InitialPackets, Flush, Holds;
    TickOpens(w, io, canEnable, time);
    OpeningBatch(w.store, io, TargetOf(w.link));
  }

  /** A reply to a motor's encoder reset closes its request; no other answer touches it. */
  lemma AnswerClosesRequest(w: World, i: nat, io: Samples, now: uint64, m: MotorIndex)
    requires Inv(w) && CanDeliver(w, Queued(i, io, now))
    ensures var z := DeliverOne(w, Queued(i, io, now));
            && (z.store.motors[m].doReset <==>
                  w.store.motors[m].doReset && !(w.outbox[i].Reply? && ActionOf(w, w.log[i]) == ZeroEncoder(m)))
            && z.observed == w.observed
  {
    hide FlowInv, PhaseInv, StatusInv, LogInv, CacheInv, EncoderInv, SampleInv, RestInv, Issued, CommandPackets,
         CommandStore, Deliver, Settled, Flush, Interpret, Recorded, Readable;
    DeliverKeepsInv(w, Queued(i, io, now));
    SettleKeepsCore(w, i, io);
    AnswerShape(w, i);
    AnswerZeroed(w, i);
    ZeroingNumber(w, i, m);
    DeliverInParts(w, i, io, now);
    SettledStore(w, i, io);
    RecordedResets(w.store, w.outbox[i], io, m);
    var w1 := Settled(w, i, io);
    if Fires(w1.link) {
      IssuedFields(w1, io);
      CommandResets(w1.store, io, w1.link.canEnable, w1.link.deviceReset, m);
    }
  }

  lemma ZeroingNumber(w: World, i: nat, m: MotorIndex)
    requires LogInv(w) && i < |w.log|
    ensures w.log[i].number == MESSAGE_MOTOR_RESET_ENCODER_0 + m <==> ActionOf(w, w.log[i]) == ZeroEncoder(m)
  {
    hide Interpret, Distinct;
    NumberTellsAction(w.hub, w.log[i]);
  }

  lemma SettledStore(w: World, i: nat, io: Samples)
    requires i in w.outbox && i < |w.log| && Readable(w.link, w.outbox[i])
    requires w.outbox[i].Reply? ==> Readable(NEW_LINK, w.outbox[i])
    ensures Settled(w, i, io).store == Recorded(w.store, w.outbox[i], io) && Settled(w, i, io).observed == w.observed
  {
    hide Noted, Recorded, Readable;
  }

  // ---- An answered request stays answered ----

  /** No tick of the run brings a time stamp for this motor but the last one seen. */
  predicate NoNewStamp(s: Step, m: MotorIndex, stamp: int64) {
    s.Timer? ==> s.io.motors[m].resetTime == stamp
  }

  /** The motor's request is answered, and this is the time stamp last seen. */
  predicate IsAnswered(w: World, m: MotorIndex, stamp: int64) {
    !w.store.motors[m].doReset && w.observed[m] == stamp
  }

  lemma TickStaysAnswered(w: World, io: Samples, canEnable: bool, time: uint64, m: MotorIndex)
    requires Inv(w) && IsAnswered(w, m, io.motors[m].resetTime)
    ensures IsAnswered(Tick(w, io, canEnable, time), m, io.motors[m].resetTime)
    ensures OnUpdate(w.link, w.store, io, canEnable, time, w.lastLoop).started ==>
              !Holds(Tick(w, io, canEnable, time).log, MESSAGE_MOTOR_RESET_ENCODER_0 + m)
  {
    hide PhaseInv, StatusInv, RestInv, LogInv, CacheInv, SampleInv, Interval, Holds, WindowFlow, Unwritten;
    if OnUpdate(w.link, w.store, io, canEnable, time, w.lastLoop).started {
      OpenRequestIsSent(w, io, canEnable, time, m);
    } else {
      QuietUpdate(w.link, w.store, io, canEnable, time, w.lastLoop);
      AbsorbQuietly(w, OnUpdate(w.link, w.store, io, canEnable, time, w.lastLoop).outcome, io);
      hide OnUpdate, Absorb;
    }
  }

  lemma PickStaysAnswered(w: World, pick: Pick, m: MotorIndex, stamp: int64)
    requires Inv(w) && CanDeliver(w, pick) && IsAnswered(w, m, stamp)
    ensures IsAnswered(DeliverOne(w, pick), m, stamp)
  {
    match pick
    case Queued(i, io, now) => AnswerClosesRequest(w, i, io, now, m);
    case Handshake(number, e, io, now) =>
      DeliverKeepsInv(w, pick);
      HandshakeReplyIsInOrder(w, number, e);
      GreetIsQuiet(w.link, e, now);
      hide Greet, Inv;
      AbsorbQuietly(w, Handle(w.link, w.store, e, io, now), io);
      hide Absorb;
  }

  lemma {:induction false} PicksStayAnswered(w: World, picks: seq<Pick>, m: MotorIndex, stamp: int64)
    requires Inv(w) && AllDeliverable(w, picks) && IsAnswered(w, m, stamp)
    ensures IsAnswered(DeliverAll(w, picks), m, stamp)
    decreases |picks|
  {
    hide Inv, DeliverOne, CanDeliver, IsAnswered;
    if picks != [] {
      PickStaysAnswered(w, picks[0], m, stamp);
      PicksStayAnswered(DeliverOne(w, picks[0]), picks[1..], m, stamp);
    }
  }

  lemma StepStaysAnswered(w: World, s: Step, m: MotorIndex, stamp: int64)
    requires Inv(w) && Enabled(w, s) && NoNewStamp(s, m, stamp) && IsAnswered(w, m, stamp)
    ensures IsAnswered(Next(w, s), m, stamp)
  {
    hide Core, RestInv, Tick, DeliverAll, Flush, Flushed, Reconnected;
    match s
    case Timer(io, canEnable, time) => TickStaysAnswered(w, io, canEnable, time, m);
    case Process(_, _) =>
    case Read(picks) =>
      PicksStayAnswered(w, picks, m, stamp);
      FlushedFields(DeliverAll(w, picks));
    case PowerCycle(_) =>
    case Reconnect(values, flag, start, hub) => ReconnectStaysAnswered(w, values, flag, start, hub, m);
  }

  lemma ReconnectStaysAnswered(w: World, values: Register -> int, flag: bool, start: uint64, hub: Target, m: MotorIndex)
    ensures var z := Reconnected(w, values, flag, start, hub);
            z.store.motors[m].doReset == w.store.motors[m].doReset && z.observed == w.observed
  {
    hide Synchronize, ForgetAll;
    ForgottenStore(w.store);
  }

  /**
   * At most once until it is asked again: once a motor's request is answered, and as long as its time stamp stays the
   * same, the request stays closed and no transaction sends an encoder reset for it, also after a reconnect.
   */
  lemma {:induction false} AnsweredStaysAnswered(w: World, steps: seq<Step>, m: MotorIndex, stamp: int64)
    requires Inv(w) && AllEnabled(w, steps) && IsAnswered(w, m, stamp)
    requires forall s :: s in steps ==> NoNewStamp(s, m, stamp)
    ensures IsAnswered(Run(w, steps), m, stamp)
    ensures forall io: Samples, canEnable, time ::
              io.motors[m].resetTime == stamp && Starts(Run(w, steps).link, time, Run(w, steps).lastLoop) ==>
                !Holds(Next(Run(w, steps), Timer(io, canEnable, time)).log, MESSAGE_MOTOR_RESET_ENCODER_0 + m)
    decreases |steps|
  {
    hide Inv, Next, IsAnswered, NoNewStamp, Holds, Starts;
    if steps != [] {
      assert steps[0] in steps && forall s :: s in steps[1..] ==> s in steps;
      StepStaysAnswered(w, steps[0], m, stamp);
      AnsweredStaysAnswered(Next(w, steps[0]), steps[1..], m, stamp);
    } else {
      forall io: Samples, canEnable, time
        | io.motors[m].resetTime == stamp && Starts(w.link, time, w.lastLoop)
        ensures !Holds(Next(w, Timer(io, canEnable, time)).log, MESSAGE_MOTOR_RESET_ENCODER_0 + m)
      {
        StartSendsNoReset(w, io, canEnable, time, m);
      }
    }
  }

  lemma StartSendsNoReset(w: World, io: Samples, canEnable: bool, time: uint64, m: MotorIndex)
    requires Inv(w) && IsAnswered(w, m, io.motors[m].resetTime) && Starts(w.link, time, w.lastLoop)
    ensures !Holds(Next(w, Timer(io, canEnable, time)).log, MESSAGE_MOTOR_RESET_ENCODER_0 + m)
  {
    hide Holds, Tick, FlowInv, PhaseInv, StatusInv, RestInv, LogInv, CacheInv, SampleInv, EncoderInv;
    TickStaysAnswered(w, io, canEnable, time, m);
  }

  // ---- Handshake ----

  /** The handshake facts stay; packets may go around the queue before the last of them, and none does after it. */
  predicate KeepsHandshake(w: World, z: World) {
    Extends(w.link, z.link) && w.asked <= z.asked && (w.link.ftdiDone ==> z.asked == w.asked)
  }

  lemma NothingAsked<T>(asked: seq<T>)
    ensures asked + [] == asked
  {
  }

  lemma TickKeepsHandshake(w: World, io: Samples, canEnable: bool, time: uint64)
    requires Inv(w)
    ensures KeepsHandshake(w, Tick(w, io, canEnable, time))
  {
    hide OnUpdate, PhaseInv, StatusInv, RestInv, LogInv, CacheInv, EncoderInv, SampleInv, WindowFlow, Interval;
    UpdateExtends(w.link, w.store, io, canEnable, time, w.lastLoop);
    NothingAsked(w.asked);
  }

  lemma OneKeepsHandshake(w: World, pick: Pick)
    requires Inv(w) && CanDeliver(w, pick)
    ensures KeepsHandshake(w, DeliverOne(w, pick))
  {
    hide Handle, FlowInv, PhaseInv, StatusInv, RestInv, LogInv, CacheInv, EncoderInv, SampleInv, Interval;
    DeliverKeepsInv(w, pick);
    var e := if pick.Queued? then w.outbox[pick.index] else pick.event;
    HandleExtends(w.link, w.store, e, pick.io, pick.now);
    NothingAsked(w.asked);
  }

  lemma {:induction false} PicksKeepHandshake(w: World, picks: seq<Pick>)
    requires Inv(w) && AllDeliverable(w, picks)
    ensures KeepsHandshake(w, DeliverAll(w, picks))
    decreases |picks|
  {
    hide Inv, DeliverOne, CanDeliver;
    if picks != [] {
      OneKeepsHandshake(w, picks[0]);
      PicksKeepHandshake(DeliverOne(w, picks[0]), picks[1..]);
    }
  }

  lemma StepKeepsHandshake(w: World, s: Step)
    requires Inv(w) && Enabled(w, s) && !s.Reconnect?
    ensures KeepsHandshake(w, Next(w, s))
  {
    hide Core, RestInv, Tick, DeliverAll, Flush, Flushed;
    match s
    case Timer(io, canEnable, time) => TickKeepsHandshake(w, io, canEnable, time);
    case Process(_, _) =>
    case Read(picks) =>
      PicksKeepHandshake(w, picks);
      FlushedFields(DeliverAll(w, picks));
    case PowerCycle(_) =>
  }

  /**
   * As long as the device stays connected, the address, the interface id and the final flag are each set once and in
   * that order, and every dereference finds its value. The packets sent around the queue are discover frames, then
   * interface queries, then final handshake frames, each read as that by the hub it is for, whose own address and
   * interface id are the ones learned; and once transactions may start no more are sent, ever.
   */
  lemma {:induction false} HandshakeSafety(w: World, steps: seq<Step>)
    requires Inv(w) && AllEnabled(w, steps)
    requires forall s | s in steps :: !s.Reconnect?
    ensures var z := Run(w, steps);
            && KeepsHandshake(w, z) && InStages(z.asked) && Ordered(z.link) && TickSafe(z.link)
            && (z.link.interfaceId.Some? ==> z.link.address.Some?) && Knows(z.link, z.hub)
            && (forall p :: p in z.asked ==> Understood(z.hub, p))
    decreases |steps|
  {
    hide Enabled, Next, Core, RestInv, InStages, Understood, Knows;
    InOrder(w);
    if steps != [] {
      StepKeepsHandshake(w, steps[0]);
      HandshakeSafety(Next(w, steps[0]), steps[1..]);
    }
  }

  lemma InOrder(w: World)
    requires Inv(w)
    ensures InStages(w.asked) && Ordered(w.link) && TickSafe(w.link) && (w.link.interfaceId.Some? ==> w.link.address.Some?)
    ensures Knows(w.link, w.hub) && forall p :: p in w.asked ==> Understood(w.hub, p)
  {
    hide Understood, FlowInv, PhaseInv, StatusInv, RestInv, LogInv, CacheInv, EncoderInv, SampleInv;
  }
}
