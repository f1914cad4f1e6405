/** Taking in one answer keeps the invariant: the reply is noted, the batch may be issued, the transaction may end. */
module Replies {
  import opened Batches
  import opened Bytes
  import opened Caches
  import opened Frames
  import opened Messages
  import opened Protocol
  import opened Stores
  import opened World
  import opened Wrappers

  // ---- What the store changes amount to, cache by cache ----

  lemma RecordedCaches(st: Store, e: Event, io: Samples, r: Register)
    requires e.Reply? ==> Readable(NEW_LINK, e)
    ensures CacheOf(Recorded(st, e, io), r) ==
            if e.Reply? && RegisterOf(e.reference) == Some(r) then Confirmed(CacheOf(st, r)) else CacheOf(st, r)
  {
    if e.Reply? && RegisterOf(e.reference).Some? {
      var q := RegisterOf(e.reference).value;
      assert Recorded(st, e, io) == Acknowledge(st, q);
      hide Recorded, CacheOf, Acknowledge, RegisterOf;
      AcknowledgeIsLocal(st, q, r);
    } else {
      OtherEventsKeepCaches(st, e, io, r);
    }
  }

  lemma OtherEventsKeepCaches(st: Store, e: Event, io: Samples, r: Register)
    requires e.Reply? ==> Readable(NEW_LINK, e) && RegisterOf(e.reference).None?
    ensures CacheOf(Recorded(st, e, io), r) == CacheOf(st, r)
  {
    hide FlagCode, PeriodCode, BulkEncoders;
    if e.Reply? && e.reference == MESSAGE_BULK_INPUT {
      BulkKeepsCaches(st, e.payload, io, r);
    }
  }

  lemma BulkKeepsCaches(st: Store, payload: seq<byte>, io: Samples, r: Register)
    requires |payload| >= 26
    ensures CacheOf(BulkEncoders(st, payload, io), r) == CacheOf(st, r)
  {
    hide ReadInt32, ReadInt16;
  }

  lemma RecordedResets(st: Store, e: Event, io: Samples, m: MotorIndex)
    requires e.Reply? ==> Readable(NEW_LINK, e)
    ensures Recorded(st, e, io).motors[m].doReset ==
            (st.motors[m].doReset && !(e.Reply? && e.reference == MESSAGE_MOTOR_RESET_ENCODER_0 + m))
    ensures Recorded(st, e, io).motors[m].lastResetTime == st.motors[m].lastResetTime
  {
  }

  lemma CommandCaches(st: Store, io: Samples, canEnable: bool, deviceReset: bool, r: Register)
    ensures var c, code := CacheOf(CommandStore(st, io, canEnable, deviceReset), r), SampledCode(io, canEnable, r);
            || (c == CacheOf(st, r) && c.lastAcked == Some(code) && !deviceReset)
            || c == Cache(None, code)
    ensures CacheOf(st, r).lastAcked.None? ==>
              CacheOf(CommandStore(st, io, canEnable, deviceReset), r).lastAcked.None?
  {
    ForgetAllForgets(st, r);
    AfterAttempt(CommandBase(st, deviceReset), io, canEnable, r);
  }

  lemma CommandResets(st: Store, io: Samples, canEnable: bool, deviceReset: bool, m: MotorIndex)
    ensures CommandStore(st, io, canEnable, deviceReset).motors[m].doReset == st.motors[m].doReset
    ensures CommandStore(st, io, canEnable, deviceReset).motors[m].lastResetTime == st.motors[m].lastResetTime
  {
  }

  lemma InitialCaches(st: Store, io: Samples, r: Register)
    ensures CacheOf(InitialStore(st, io), r) == CacheOf(st, r)
  {
  }

  // ---- The answer leaves the wire ----

  /** The world once the answer to frame i has been noted, before the state advances. */
  function Settled(w: World, i: nat, io: Samples): World
    requires i in w.outbox && Readable(w.link, w.outbox[i]) && i < |w.log|
  {
    var e := w.outbox[i];
    Take(w, i).(link := Answered(Noted(w.link, e)), store := Recorded(w.store, e, io))
  }

  lemma NotedKeeps(l: Link, e: Event)
    requires Readable(l, e)
    ensures var l' := Answered(Noted(l, e));
            && l'.queue == l.queue && l'.sendState == l.sendState && l'.window == (l.window - 1) % 0x100
            && l'.address == l.address && l'.interfaceId == l.interfaceId && l'.ftdiDone == l.ftdiDone
            && l'.canEnable == l.canEnable
            && (l'.haveBattery <==> l.haveBattery || (e.Reply? && e.reference == MESSAGE_BATTERY_VOLTAGE))
            && (l'.haveBulk <==> l.haveBulk || (e.Reply? && e.reference == MESSAGE_BULK_INPUT))
            && (l'.haveStatus <==> l.haveStatus || (e.Reply? && e.reference == MESSAGE_MODULE_STATUS))
            && l'.deviceReset == if e.Reply? && e.reference == MESSAGE_MODULE_STATUS then e.payload[0] != 0 else l.deviceReset
  {
  }

  /** The numbering in use: a queued answer's event is one the window is charged for, and its register is its frame's. */
  lemma AnswerShape(w: World, i: nat)
    requires FlowInv(w) && HandshakeInv(w) && LogInv(w) && CacheInv(w) && i in w.outbox
    ensures i < |w.log| && Readable(w.link, w.outbox[i]) && Counts(w.link, w.outbox[i])
    ensures i in w.open && i < w.written && i < w.processed
    ensures var e, a := w.outbox[i], ActionOf(w, w.log[i]);
            e.Reply? ==>
              && e.reference == w.log[i].number
              && RegisterOf(e.reference) == (if a.Write? then Some(a.register) else None)
              && (a.ReadStatus? <==> e.reference == MESSAGE_MODULE_STATUS)
              && (forall m: MotorIndex :: e.reference == MESSAGE_MOTOR_RESET_ENCODER_0 + m ==> a == ZeroEncoder(m))
  {
    hide Interpret, CacheOf, CacheTrue, FrameTrue, DeadTrue, Distinct, Understood, RegisterOf;
    assert i in Interval(0, w.processed);
    assert AnswerTrue(w, i);
    assert Fits(w, w.log[i], w.outbox[i]);
    assert w.link.interfaceId.Some?;
    NumberTellsAction(w.hub, w.log[i]);
  }

  lemma SettleFlow(w: World, i: nat, io: Samples)
    requires FlowInv(w) && i in w.outbox && i < |w.log| && Readable(w.link, w.outbox[i])
    requires i in w.open && i < w.processed
    ensures FlowInv(Settled(w, i, io))
    ensures w.link.sendState != ReadyToSend
  {
    hide Recorded, Interval, Unwritten, Noted, Answered;
    NotedKeeps(w.link, w.outbox[i]);
    WindowShrinks(w.written, w.processed, w.open, w.outbox.Keys, w.link.window, i);
    assert (w.outbox - {i}).Keys == w.outbox.Keys - {i};
  }

  lemma WindowShrinks(written: nat, processed: nat, open: set<nat>, answered: set<nat>, window: byte, i: nat)
    requires WindowFlow(written, processed, open, answered, window) && i in open && i < processed
    ensures WindowFlow(written, processed, open - {i}, answered - {i}, (window - 1) % 0x100)
    ensures |open - {i}| == |open| - 1
  {
    hide Interval;
  }

  lemma SettlePhase(w: World, i: nat, io: Samples)
    requires FlowInv(w) && HandshakeInv(w) && LogInv(w) && CacheInv(w) && PhaseInv(w) && i in w.outbox
    requires w.link.sendState != ReadyToSend
    requires i < |w.log| && Readable(w.link, w.outbox[i])
    ensures PhaseInv(Settled(w, i, io))
  {
    AnswerShape(w, i);
    assert AnswerTrue(w, i);
    hide Recorded, Interpret, WindowFlow, Unwritten, LogInv, CacheInv;
    NotedKeeps(w.link, w.outbox[i]);
  }

  lemma SettleHandshake(w: World, i: nat, io: Samples)
    requires FlowInv(w) && HandshakeInv(w) && LogInv(w) && CacheInv(w) && i in w.outbox
    requires i < |w.log| && Readable(w.link, w.outbox[i])
    ensures HandshakeInv(Settled(w, i, io)) && LogInv(Settled(w, i, io))
    ensures Settled(w, i, io).hub == w.hub
  {
    hide Recorded, Understood, Interpret, FlowInv, CacheInv, Distinct, Noted;
    AnswerShape(w, i);
    NotedKeeps(w.link, w.outbox[i]);
  }

  lemma SettleCache(w: World, i: nat, io: Samples)
    requires FlowInv(w) && HandshakeInv(w) && LogInv(w) && CacheInv(w) && i in w.outbox
    requires i < |w.log| && Readable(w.link, w.outbox[i])
    ensures CacheInv(Settled(w, i, io))
  {
    hide Interpret, Recorded, CacheOf, Noted, Readable, Understood, LogInv, FlowInv;
    AnswerShape(w, i);
    SettleHandshake(w, i, io);
    var w' := Settled(w, i, io);
    var e, a := w.outbox[i], ActionOf(w, w.log[i]);
    assert AnswerTrue(w, i) && FrameTrue(w, i);
    forall r: Register
      ensures CacheOf(w'.store, r) ==
              if e.Reply? && a.Write? && a.register == r then Confirmed(CacheOf(w.store, r)) else CacheOf(w.store, r)
    {
      RecordedCaches(w.store, e, io, r);
    }
    forall r: Register ensures CacheTrue(w', r) {
      assert CacheTrue(w, r);
    }
    forall k: nat | k < |w.log| ensures FrameTrue(w', k) {
      assert FrameTrue(w, k);
      var b := ActionOf(w, w.log[k]);
      if k != i {
        OtherNumber(w, i, k);
        if b.Write? && a.Write? && a.register == b.register {
          SameRegisterSameNumber(w, i, k);
        }
      }
    }
    forall k: nat | k < |w.log| && k in w'.outbox ensures AnswerTrue(w', k) {
      assert AnswerTrue(w, k);
    }
  }

  lemma OtherNumber(w: World, i: nat, k: nat)
    requires LogInv(w) && i < |w.log| && k < |w.log| && i != k
    ensures w.log[i].number != w.log[k].number
  {
    hide Understood;
  }

  lemma SameRegisterSameNumber(w: World, i: nat, k: nat)
    requires LogInv(w) && i < |w.log| && k < |w.log| && i != k
    requires ActionOf(w, w.log[i]).Write? && ActionOf(w, w.log[k]).Write?
    ensures ActionOf(w, w.log[i]).register != ActionOf(w, w.log[k]).register
  {
    hide Interpret;
    assert Understood(w.hub, w.log[i]) && Understood(w.hub, w.log[k]);
  }

  lemma SettleEncoder(w: World, i: nat, io: Samples)
    requires FlowInv(w) && HandshakeInv(w) && LogInv(w) && CacheInv(w) && EncoderInv(w) && i in w.outbox
    requires i < |w.log| && Readable(w.link, w.outbox[i])
    ensures EncoderInv(Settled(w, i, io))
  {
    hide Interpret, Recorded, Noted, Readable, Understood, FlowInv, LogInv, HandshakeInv, CacheInv, Answered;
    AnswerShape(w, i);
    var w', e := Settled(w, i, io), w.outbox[i];
    AnswerZeroed(w, i);
    assert w'.store == Recorded(w.store, e, io) && w'.device == w.device;
    forall m: MotorIndex
      ensures w'.store.motors[m].doReset ==
              (w.store.motors[m].doReset && !(e.Reply? && e.reference == MESSAGE_MOTOR_RESET_ENCODER_0 + m))
      ensures w'.store.motors[m].lastResetTime == w.store.motors[m].lastResetTime
    {
      RecordedResets(w.store, e, io, m);
    }
  }

  lemma AnswerZeroed(w: World, i: nat)
    requires CacheInv(w) && i in w.outbox && i < |w.log|
    ensures w.outbox[i].Reply? ==>
              && Readable(NEW_LINK, w.outbox[i])
              && forall m: MotorIndex :: ActionOf(w, w.log[i]) == ZeroEncoder(m) ==> w.device.zeroed[m] >= w.transaction
  {
    hide Interpret, CacheTrue, FrameTrue, DeadTrue, Readable;
    assert AnswerTrue(w, i);
  }

  lemma SettleSample(w: World, i: nat, io: Samples)
    requires FlowInv(w) && HandshakeInv(w) && LogInv(w) && CacheInv(w) && SampleInv(w) && i in w.outbox
    requires i < |w.log| && Readable(w.link, w.outbox[i])
    ensures SampleInv(Settled(w, i, io))
  {
    AnswerShape(w, i);
    assert FrameTrue(w, i);
    NotedKeeps(w.link, w.outbox[i]);
    hide Interpret, Recorded, Noted, Readable, Understood, CacheInv, FlowInv, LogInv, HandshakeInv, SampledCode,
         CacheOf;
    var w', e := Settled(w, i, io), w.outbox[i];
    if w.batches == 1 {
      forall r: Register ensures SampleTrue(w', r) {
        assert SampleTrue(w, r);
        RecordedCaches(w.store, e, io, r);
      }
      forall i: nat | i < |w.log| ensures FrameSampled(w', w'.log[i]) { assert FrameSampled(w, w.log[i]); }
    }
  }

  lemma SettleStatus(w: World, i: nat, io: Samples)
    requires FlowInv(w) && HandshakeInv(w) && LogInv(w) && CacheInv(w) && StatusInv(w) && i in w.outbox
    requires i < |w.log| && Readable(w.link, w.outbox[i])
    ensures StatusInv(Settled(w, i, io))
  {
    hide Interpret, Recorded, Noted, Readable, Understood, CacheInv, FlowInv, HandshakeInv;
    AnswerShape(w, i);
    NotedKeeps(w.link, w.outbox[i]);
  }

  lemma SettleKeepsCore(w: World, i: nat, io: Samples)
    requires Core(w) && i in w.outbox
    ensures i < |w.log| && Readable(w.link, w.outbox[i]) && Counts(w.link, w.outbox[i])
    ensures Core(Settled(w, i, io))
    ensures w.link.sendState != ReadyToSend && |Settled(w, i, io).open| == |w.open| - 1
  {
    hide FlowInv, HandshakeInv, PhaseInv, StatusInv, LogInv, CacheInv, EncoderInv, SampleInv;
    AnswerShape(w, i);
    SettleFlow(w, i, io);
    SettlePhase(w, i, io);
    SettleHandshake(w, i, io);
    SettleCache(w, i, io);
    SettleEncoder(w, i, io);
    SettleSample(w, i, io);
    SettleStatus(w, i, io);
  }

  // ---- The command batch ----

  function Issued(w: World, io: Samples): World
    requires w.link.address.Some? && w.link.interfaceId.Some?
  {
    Absorb(w, IssueCommands(w.link, w.store, io), io)
  }

  /** What a batch starts from: all three replies are in and no batch was issued. */
  ghost predicate Due(w: World) {
    Core(w) && Fires(w.link)
  }

  /** Within the window no uint8_t addition wraps, and the flush leaves an empty queue or a full window. */
  lemma FlushWithinWindow(l: Link)
    requires l.window <= MAX_NUM_OUTSTANDING_MESSAGES
    ensures var (l', sent) := Flush(l);
            && l' == l.(queue := l'.queue, window := l'.window)
            && sent == l.queue[..|sent|] && l'.queue == l.queue[|sent|..]
            && l'.window == l.window + |sent| && l'.window <= MAX_NUM_OUTSTANDING_MESSAGES
            && (l'.queue == [] || l'.window == MAX_NUM_OUTSTANDING_MESSAGES)
            && |sent| + |l'.queue| == |l.queue|
  {
  }

  lemma WindowGrows(written: nat, processed: nat, open: set<nat>, answered: set<nat>, window: byte, n: nat)
    requires WindowFlow(written, processed, open, answered, window)
    requires window + n <= MAX_NUM_OUTSTANDING_MESSAGES
    ensures var open' := open + Interval(written, written + n);
            WindowFlow(written + n, processed, open', answered, window + n) && |open'| == |open| + n
  {
    hide Interval;
    assert open !! Interval(written, written + n);
  }

  lemma QueueSlides<T>(log: seq<T>, written: nat, queue: seq<T>, ps: seq<T>, n: nat)
    requires Unwritten(log, written, queue) && n <= |queue| + |ps|
    ensures Unwritten(log + ps, written + n, (queue + ps)[n..])
    ensures |(queue + ps)[n..]| == |queue| + |ps| - n
  {
  }

  /** Field by field, what issuing the batch does to the world. */
  lemma IssuedFields(w: World, io: Samples)
    requires w.link.address.Some? && w.link.interfaceId.Some?
    ensures var w' := Issued(w, io);
            var ps := CommandPackets(w.store, io, w.link.canEnable, w.link.deviceReset, TargetOf(w.link));
            var (l', sent) := Flush(Enqueue(w.link, ps));
            && w'.link == l'.(sendState := WaitingForFinish)
            && l' == w.link.(queue := l'.queue, window := l'.window)
            && w'.store == CommandStore(w.store, io, w.link.canEnable, w.link.deviceReset)
            && w'.log == w.log + ps && w'.written == w.written + |sent|
            && w'.open == w.open + Interval(w.written, w.written + |sent|)
            && w'.asked == w.asked && w'.batches == w.batches + 1 && w'.sampled == io
            && w'.unacted == (w.unacted && !w.link.deviceReset)
            && w'.processed == w.processed && w'.outbox == w.outbox && w'.dead == w.dead && w'.device == w.device
            && w'.transaction == w.transaction && w'.replied == w.replied
            && w'.statusRead == w.statusRead && w'.requested == w.requested
            && w'.hub == w.hub && w'.observed == w.observed && w'.allowed == w.allowed
  {
    hide CommandPackets, CommandStore;
  }

  /** Enqueuing packets and writing the first n of what is queued keeps log, queue, wire and window in step. */
  lemma GrowFlow(w: World, w': World, ps: seq<Packet>, n: nat)
    requires FlowInv(w) && w.link.sendState != ReadyToSend && w'.link.sendState != ReadyToSend
    requires w'.log == w.log + ps && n <= |w.link.queue| + |ps|
    requires w'.link.queue == (w.link.queue + ps)[n..]
    requires w'.link.window == w.link.window + n <= MAX_NUM_OUTSTANDING_MESSAGES
    requires w'.written == w.written + n && w'.open == w.open + Interval(w.written, w.written + n)
    requires w'.processed == w.processed && w'.outbox == w.outbox
    ensures FlowInv(w')
    ensures |w'.open| + |w'.link.queue| == |w.open| + |w.link.queue| + |ps|
  {
    hide WindowFlow, Interval, Unwritten;
    WindowGrows(w.written, w.processed, w.open, w.outbox.Keys, w.link.window, n);
    QueueSlides(w.log, w.written, w.link.queue, ps, n);
  }

  lemma IssueFlow(w: World, io: Samples)
    requires FlowInv(w) && Fires(w.link) && w.link.address.Some? && w.link.interfaceId.Some?
    ensures FlowInv(Issued(w, io))
    ensures Issued(w, io).link.queue == [] || Issued(w, io).link.window == MAX_NUM_OUTSTANDING_MESSAGES
    ensures |Issued(w, io).open| + |Issued(w, io).link.queue| ==
            |w.open| + |w.link.queue| + |CommandPackets(w.store, io, w.link.canEnable, w.link.deviceReset, TargetOf(w.link))|
  {
    hide Interval;
    var ps := CommandPackets(w.store, io, w.link.canEnable, w.link.deviceReset, TargetOf(w.link));
    IssuedFields(w, io);
    FlushWithinWindow(Enqueue(w.link, ps));
    hide Issued, CommandPackets, CommandStore, WindowFlow, Unwritten, Flush;
    GrowFlow(w, Issued(w, io), ps, |Flush(Enqueue(w.link, ps)).1|);
  }

  lemma IssuePhase(w: World, io: Samples)
    requires HandshakeInv(w) && PhaseInv(w) && Fires(w.link)
    ensures HandshakeInv(Issued(w, io)) && PhaseInv(Issued(w, io))
  {
    hide Issued, CommandPackets, CommandStore, Interval, FlushCount;
    IssuedFields(w, io);
  }

  lemma IssueLog(w: World, io: Samples)
    requires HandshakeInv(w) && PhaseInv(w) && LogInv(w) && Fires(w.link)
    ensures LogInv(Issued(w, io))
  {
    hide Issued, CommandPackets, CommandStore, Understood, CacheOf, SampledCode, Suppressed, Holds, Interval,
         FlushCount;
    CommandBatch(w.store, io, w.link.canEnable, w.link.deviceReset, TargetOf(w.link));
    IssuedFields(w, io);
    var ps := CommandPackets(w.store, io, w.link.canEnable, w.link.deviceReset, TargetOf(w.link));
    JoinDistinct(w.log, ps);
    hide Distinct;
  }

  lemma OpeningFramesWriteNothing(w: World, i: nat)
    requires LogInv(w) && w.batches == 0 && i < |w.log|
    ensures !ActionOf(w, w.log[i]).Write?
  {
    hide Interpret;
    assert Understood(w.hub, w.log[i]);
  }

  lemma IssueCaches(w: World, io: Samples, r: Register)
    requires w.link.address.Some? && w.link.interfaceId.Some?
    ensures var c, code := CacheOf(Issued(w, io).store, r), SampledCode(io, w.link.canEnable, r);
            || (c == CacheOf(w.store, r) && c.lastAcked == Some(code) && !w.link.deviceReset)
            || c == Cache(None, code)
    ensures CacheOf(w.store, r).lastAcked.None? ==> CacheOf(Issued(w, io).store, r).lastAcked.None?
  {
    IssuedFields(w, io);
    CommandCaches(w.store, io, w.link.canEnable, w.link.deviceReset, r);
  }

  lemma IssueFrames(w: World, io: Samples, k: nat)
    requires FlowInv(w) && HandshakeInv(w) && PhaseInv(w) && LogInv(w) && Fires(w.link)
    requires k < |Issued(w, io).log|
    ensures FrameTrue(Issued(w, io), k)
  {
    var w', ps := Issued(w, io), CommandPackets(w.store, io, w.link.canEnable, w.link.deviceReset, TargetOf(w.link));
    IssuedFields(w, io);
    if k < |w.log| {
      OpeningFramesWriteNothing(w, k);
      assert w'.log[k] == w.log[k];
    } else {
      NewFrameTrue(w, io, k);
    }
  }

  lemma NewFrameTrue(w: World, io: Samples, k: nat)
    requires FlowInv(w) && HandshakeInv(w) && LogInv(w) && Complete(w.link) && w.batches == 0
    requires |w.log| <= k < |Issued(w, io).log|
    ensures FrameTrue(Issued(w, io), k)
  {
    hide Interpret, CacheOf, Understood, Interval, LogInv, FlowInv, Issued, CommandPackets, CommandStore, SampledCode,
         Suppressed, Holds, Distinct, Flush;
    NewFramesAreOpen(w, io, k);
    var w', ps := Issued(w, io), CommandPackets(w.store, io, w.link.canEnable, w.link.deviceReset, TargetOf(w.link));
    CommandBatch(w.store, io, w.link.canEnable, w.link.deviceReset, TargetOf(w.link));
    IssuedFields(w, io);
    var p := ps[k - |w.log|];
    assert w'.log[k] == p;
    assert GoodPacket(p, w.hub, w'.store);
    if ActionOf(w, p).Write? {
      NewWriteHasNoReply(w, p);
    }
  }

  /** Before the batch only opening frames were answered, and none of them writes a register. */
  lemma NewWriteHasNoReply(w: World, p: Packet)
    requires LogInv(w) && w.batches == 0 && Understood(w.hub, p) && ActionOf(w, p).Write?
    ensures p.number as int !in w.replied
  {
    hide Interpret, Distinct;
  }

  lemma NewFramesAreOpen(w: World, io: Samples, k: nat)
    requires FlowInv(w) && w.link.address.Some? && w.link.interfaceId.Some? && k >= |w.log|
    ensures k in Issued(w, io).open || Issued(w, io).written <= k
  {
    hide Issued, CommandPackets, CommandStore, FlushCount;
    IssuedFields(w, io);
  }

  lemma IssueRegisters(w: World, io: Samples)
    requires CacheInv(w) && w.link.address.Some? && w.link.interfaceId.Some?
    ensures forall r: Register :: CacheTrue(Issued(w, io), r)
    ensures forall j: nat :: j < |w.dead| ==> DeadTrue(Issued(w, io), w.dead[j])
  {
    hide Issued, CommandPackets, CommandStore, CacheOf, SampledCode, Interpret, Flush;
    var w' := Issued(w, io);
    IssuedFields(w, io);
    forall r: Register ensures CacheTrue(w', r) {
      IssueCaches(w, io, r);
      assert CacheTrue(w, r);
    }
    forall j: nat | j < |w.dead| ensures DeadTrue(w', w.dead[j]) {
      assert DeadTrue(w, w.dead[j]);
      var a := ActionOf(w, w.dead[j]);
      if a.Write? { IssueCaches(w, io, a.register); }
    }
  }

  lemma IssueAnswers(w: World, io: Samples, k: nat)
    requires FlowInv(w) && LogInv(w) && w.batches == 0 && w.link.address.Some? && w.link.interfaceId.Some?
    requires k in w.outbox && k < |w.log| && AnswerTrue(w, k)
    ensures AnswerTrue(Issued(w, io), k)
  {
    hide Issued, CommandPackets, CommandStore, Interpret, LogInv, FlowInv, Flush;
    IssuedFields(w, io);
    OpeningFramesWriteNothing(w, k);
    var w' := Issued(w, io);
    assert w'.log[k] == w.log[k];
  }

  lemma IssueCache(w: World, io: Samples)
    requires FlowInv(w) && HandshakeInv(w) && PhaseInv(w) && LogInv(w) && CacheInv(w) && Fires(w.link)
    ensures CacheInv(Issued(w, io))
  {
    hide Issued, CommandPackets, CommandStore, CacheTrue, FrameTrue, AnswerTrue, DeadTrue, Flush, Interval;
    var w' := Issued(w, io);
    forall k: nat | k < |w'.log| ensures FrameTrue(w', k) { IssueFrames(w, io, k); }
    IssueRegisters(w, io);
    IssuedFields(w, io);
    forall k: nat | k < |w'.log| && k in w'.outbox ensures AnswerTrue(w', k) {
      AnsweredFramesAreOld(w, k);
      IssueAnswers(w, io, k);
    }
  }

  lemma AnsweredFramesAreOld(w: World, k: nat)
    requires FlowInv(w) && k in w.outbox
    ensures k < |w.log|
  {
    assert k in Interval(0, w.processed);
  }

  lemma IssueSampledFrame(w: World, io: Samples, i: nat)
    requires FlowInv(w) && HandshakeInv(w) && PhaseInv(w) && LogInv(w) && Fires(w.link)
    requires i < |Issued(w, io).log|
    ensures FrameSampled(Issued(w, io), Issued(w, io).log[i])
  {
    var w' := Issued(w, io);
    IssueFrames(w, io, i);
    IssuedFields(w, io);
    if i < |w.log| {
      assert w'.log[i] == w.log[i];
      OpeningFramesWriteNothing(w, i);
    } else {
      NewFramesAreOpen(w, io, i);
      hide Interpret, CacheOf, SampledCode, Issued, FlowInv, LogInv, CommandPackets, CommandStore, Flush;
      var a := ActionOf(w', w'.log[i]);
      if a.Write? { IssueCaches(w, io, a.register); }
    }
  }

  lemma IssueSample(w: World, io: Samples)
    requires FlowInv(w) && HandshakeInv(w) && PhaseInv(w) && LogInv(w) && Fires(w.link)
    ensures SampleInv(Issued(w, io))
  {
    hide Issued, CommandPackets, CommandStore, CacheOf, SampledCode, Suppressed, Holds, FlushCount, GoodPhase,
         FrameSampled;
    var w', ps := Issued(w, io), CommandPackets(w.store, io, w.link.canEnable, w.link.deviceReset, TargetOf(w.link));
    CommandBatch(w.store, io, w.link.canEnable, w.link.deviceReset, TargetOf(w.link));
    forall i: nat | i < |w'.log| ensures FrameSampled(w', w'.log[i]) { IssueSampledFrame(w, io, i); }
    IssuedFields(w, io);
    forall r: Register ensures SampleTrue(w', r) {
      IssueCaches(w, io, r);
      JoinHolds(w.log, ps, NumberOf(r));
    }
  }

  lemma IssueEncoder(w: World, io: Samples)
    requires EncoderInv(w) && w.link.address.Some? && w.link.interfaceId.Some?
    ensures EncoderInv(Issued(w, io))
  {
    hide Issued, CommandPackets, CommandStore;
    IssuedFields(w, io);
    forall m: MotorIndex { CommandResets(w.store, io, w.link.canEnable, w.link.deviceReset, m); }
  }

  lemma IssueStatus(w: World, io: Samples)
    requires StatusInv(w) && HandshakeInv(w) && Fires(w.link)
    ensures StatusInv(Issued(w, io))
  {
    hide Issued, CommandPackets, CommandStore, CacheOf, SampledCode, Suppressed, Holds, Flush, GoodPhase;
    CommandBatch(w.store, io, w.link.canEnable, w.link.deviceReset, TargetOf(w.link));
    IssuedFields(w, io);
  }

  lemma IssueKeepsCore(w: World, io: Samples)
    requires Due(w)
    ensures Core(Issued(w, io))
  {
    IssueFlow(w, io);
    IssuePhase(w, io);
    IssueLog(w, io);
    IssueCache(w, io);
    IssueSample(w, io);
    IssueEncoder(w, io);
    IssueStatus(w, io);
    hide FlowInv, HandshakeInv, PhaseInv, StatusInv, LogInv, CacheInv, EncoderInv, SampleInv, Issued;
  }

  // ---- The end of the transaction ----

  function Closed(w: World): World {
    w.(link := Finish(w.link))
  }

  lemma CloseKeepsCore(w: World)
    requires Core(w)
    requires w.link.sendState == WaitingForPackets ==> !HaveAll(w.link)
    ensures Inv(Closed(w))
  {
    hide FlowInv, HandshakeInv, PhaseInv, StatusInv, RestInv, LogInv, CacheInv, EncoderInv, SampleInv, Closed;
    CloseKeepsFlow(w);
    SameTablesKeep(w, Closed(w));
  }

  lemma CloseKeepsFlow(w: World)
    requires FlowInv(w) && PhaseInv(w) && HandshakeInv(w) && StatusInv(w)
    requires w.link.sendState == WaitingForPackets ==> !HaveAll(w.link)
    ensures StatusInv(Closed(w))
    ensures FlowInv(Closed(w)) && PhaseInv(Closed(w)) && HandshakeInv(Closed(w)) && RestInv(Closed(w))
    ensures SameTables(w, Closed(w))
  {
    hide Interval, Unwritten;
    var w' := Closed(w);
    assert w.open == {} <==> |w.open| == 0;
    if w.link.queue == [] && w.link.window == 0 {
      assert w'.link == w.link.(sendState := ReadyToSend);
      assert w.open == {};
    } else {
      assert w' == w;
      assert RestInv(w);
    }
  }

  /** The two worlds agree on everything the tables are about. */
  ghost predicate SameTables(w: World, w': World) {
    && SameCommands(w.store, w'.store) && w'.device == w.device && w'.log == w.log && w'.written == w.written
    && w'.processed == w.processed && w'.open == w.open && w'.outbox == w.outbox && w'.dead == w.dead
    && w'.transaction == w.transaction && w'.replied == w.replied && w'.batches == w.batches && w'.sampled == w.sampled
    && w'.statusRead == w.statusRead && w'.unacted == w.unacted && w'.requested == w.requested
    && w'.observed == w.observed && w'.allowed == w.allowed && w'.hub == w.hub && w'.link.canEnable == w.link.canEnable
  }

  lemma SameTablesKeep(w: World, w': World)
    requires SameTables(w, w')
    requires LogInv(w) && CacheInv(w) && EncoderInv(w) && SampleInv(w)
    ensures LogInv(w') && CacheInv(w') && EncoderInv(w') && SampleInv(w')
  {
    forall r: Register ensures CacheOf(w'.store, r) == CacheOf(w.store, r) {}
    hide Interpret, CacheOf, Understood, Distinct, SampledCode, Suppressed, Holds, Fits;
    forall r: Register ensures CacheTrue(w', r) { assert CacheTrue(w, r); }
    forall k: nat | k < |w.log| ensures FrameTrue(w', k) { assert FrameTrue(w, k); }
    forall k: nat | k < |w.log| && k in w'.outbox ensures AnswerTrue(w', k) { FitsSame(w, w', k); assert AnswerTrue(w, k); }
    forall j: nat | j < |w'.dead| ensures DeadTrue(w', w'.dead[j]) { assert DeadTrue(w, w.dead[j]); }
    if w.batches == 1 {
      forall r: Register ensures SampleTrue(w', r) { assert SampleTrue(w, r); }
      forall i: nat | i < |w.log| ensures FrameSampled(w', w'.log[i]) { assert FrameSampled(w, w.log[i]); }
    }
  }

  lemma FitsSame(w: World, w': World, k: nat)
    requires w'.log == w.log && w'.outbox == w.outbox && k < |w.log| && k in w.outbox
    ensures Fits(w', w'.log[k], w'.outbox[k]) == Fits(w, w.log[k], w.outbox[k])
  {
  }

  // ---- One answer, from delivery to state advance ----

  /** Handling a queued answer is: note it, issue the batch if it is due, end the transaction if nothing is left. */
  lemma DeliverInParts(w: World, i: nat, io: Samples, now: uint64)
    requires HandshakeInv(w) && i in w.outbox
    requires i < |w.log| && Readable(w.link, w.outbox[i]) && Counts(w.link, w.outbox[i])
    ensures var w1 := Settled(w, i, io);
            && (Fires(w1.link) ==> w1.link.address.Some? && w1.link.interfaceId.Some?)
            && Deliver(w, Queued(i, io, now)) == Closed(if Fires(w1.link) then Issued(w1, io) else w1)
  {
    hide Recorded, Noted, Readable;
    var e := w.outbox[i];
    NotedKeeps(w.link, e);
    var w1 := Settled(w, i, io);
    if Fires(w1.link) {
      IssueThenClose(Take(w, i), w1, io);
    } else {
      NothingToAbsorb(Take(w, i), w1.link, w1.store, io);
    }
  }

  lemma NothingToAbsorb(w: World, l: Link, st: Store, io: Samples)
    ensures Absorb(w, Quiet(l, st).(link := Finish(l)), io) == Closed(w.(link := l, store := st))
  {
    assert w.log + [] == w.log;
    assert w.open + Interval(w.written, w.written) == w.open;
    assert w.asked + [] == w.asked;
  }

  lemma IssueThenClose(w: World, w1: World, io: Samples)
    requires w1.link.address.Some? && w1.link.interfaceId.Some?
    requires w1 == w.(link := w1.link, store := w1.store)
    ensures var o := IssueCommands(w1.link, w1.store, io);
            Absorb(w, o.(link := Finish(o.link)), io) == Closed(Issued(w1, io))
  {
    hide IssueCommands, Interval;
  }

  lemma IssueWaits(w: World, io: Samples)
    requires w.link.address.Some? && w.link.interfaceId.Some?
    ensures Issued(w, io).link.sendState == WaitingForFinish
  {
  }

  lemma DeliverQueuedKeepsInv(w: World, i: nat, io: Samples, now: uint64)
    requires Core(w) && RestInv(w) && i in w.outbox
    ensures i < |w.log| && Readable(w.link, w.outbox[i])
    ensures Inv(Deliver(w, Queued(i, io, now)))
  {
    hide Settled, Issued, Deliver, RestInv, Closed;
    SettleKeepsCore(w, i, io);
    DeliverInParts(w, i, io, now);
    var w1 := Settled(w, i, io);
    hide FlowInv, HandshakeInv, StatusInv, LogInv, CacheInv, EncoderInv, SampleInv;
    if Fires(w1.link) {
      IssueKeepsCore(w1, io);
      IssueWaits(w1, io);
      CloseKeepsCore(Issued(w1, io));
    } else {
      CloseKeepsCore(w1);
    }
  }

  /** What taking in a queued answer does to the flags: nothing else touches them. */
  lemma AnswerAndFlags(w: World, i: nat, io: Samples, now: uint64)
    requires Inv(w) && i in w.outbox && i < |w.log| && Ordered(w.link) && Readable(w.link, w.outbox[i])
    ensures var z, e := Deliver(w, Queued(i, io, now)), w.outbox[i];
            && z.device == w.device && z.outbox == w.outbox - {i} && |z.log| >= |w.log|
            && z.link.deviceReset == (if e.Reply? && e.reference == MESSAGE_MODULE_STATUS then e.payload[0] != 0
                                      else w.link.deviceReset)
            && z.batches >= w.batches
            && z.unacted == (w.unacted && !(z.batches > w.batches && z.link.deviceReset))
  {
    SettleKeepsCore(w, i, io);
    DeliverInParts(w, i, io, now);
    NotedKeeps(w.link, w.outbox[i]);
    var w1 := Settled(w, i, io);
    assert w1.link.deviceReset == Noted(w.link, w.outbox[i]).deviceReset;
    assert w1.unacted == w.unacted && w1.device == w.device && w1.outbox == w.outbox - {i} && w1.log == w.log;
    assert w1.batches == w.batches;
    hide Settled, Deliver, Inv, Core, Noted;
    if Fires(w1.link) {
      IssuedFields(w1, io);
      hide Issued, CommandPackets, CommandStore, Flush;
    }
  }
}
