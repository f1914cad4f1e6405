/** The bytes on the wire in every run: the frames of the enqueued packets, whole, in order, and nothing else. */
module Wire {
  import opened Buffers
  import opened Bytes
  import opened Calls
  import opened Framer
  import opened Frames
  import opened Messages
  import opened Protocol
  import opened Runs
  import opened Stores
  import opened Wrappers

  // ---- What is enqueued can be sent ----

  predicate AllSendable(ps: seq<Packet>) {
    forall i :: 0 <= i < |ps| ==> Sendable(ps[i])
  }

  lemma PhaseSendable(xs: seq<seq<Packet>>)
    requires forall i :: 0 <= i < |xs| ==> AllSendable(xs[i])
    ensures AllSendable(Flatten(xs))
  {
    hide Flatten;
    forall k | 0 <= k < |Flatten(xs)| ensures Sendable(Flatten(xs)[k]) {
      FlattenMember(xs, Flatten(xs)[k]);
      var i :| 0 <= i < |xs| && Flatten(xs)[k] in xs[i];
    }
  }

  lemma InitialSendable(st: Store, io: Samples, t: Target)
    ensures AllSendable(InitialPackets(st, io, t))
  {
    PhaseSendable(ResetPhase(InitialStore(st, io), t));
    PhaseSendable(PulsePhase(io, t));
    hide Flatten, ResetPhase, PulsePhase;
  }

  lemma JoinSendable(a: seq<Packet>, b: seq<Packet>)
    requires AllSendable(a) && AllSendable(b)
    ensures AllSendable(a + b)
  {
  }

  lemma MotorPhasesSendable(st: Store, io: Samples, canEnable: bool, t: Target)
    ensures AllSendable(Flatten(ModePhase(st, io, t))) && AllSendable(Flatten(EnablePhase(st, io, canEnable, t)))
  {
    PhaseSendable(ModePhase(st, io, t));
    PhaseSendable(EnablePhase(st, io, canEnable, t));
  }

  lemma ServoPhasesSendable(st: Store, io: Samples, canEnable: bool, t: Target)
    ensures AllSendable(Flatten(PeriodPhase(st, io, t))) && AllSendable(Flatten(ServoOnPhase(st, io, canEnable, t)))
  {
    PhaseSendable(PeriodPhase(st, io, t));
    PhaseSendable(ServoOnPhase(st, io, canEnable, t));
  }

  lemma PowerPhasesSendable(io: Samples, battery: real, t: Target)
    ensures AllSendable(Flatten(PowerPhase(io, battery, t))) && AllSendable(Flatten(CurrentPhase(t)))
  {
    hide SentPower, MotorPowers, PowerLevel;
    PhaseSendable(PowerPhase(io, battery, t));
    PhaseSendable(CurrentPhase(t));
  }

  lemma CommandSendable(st: Store, io: Samples, canEnable: bool, deviceReset: bool, t: Target)
    ensures AllSendable(CommandPackets(st, io, canEnable, deviceReset, t))
  {
    hide Flatten, PowerPhase, CurrentPhase, ModePhase, EnablePhase, PeriodPhase, ServoOnPhase, AllSendable;
    var base := CommandBase(st, deviceReset);
    PowerPhasesSendable(io, st.lastBattery, t);
    MotorPhasesSendable(base, io, canEnable, t);
    ServoPhasesSendable(base, io, canEnable, t);
    var a, b := Flatten(PowerPhase(io, st.lastBattery, t)), Flatten(CurrentPhase(t));
    var c, d := Flatten(ModePhase(base, io, t)), Flatten(EnablePhase(base, io, canEnable, t));
    var e, f := Flatten(PeriodPhase(base, io, t)), Flatten(ServoOnPhase(base, io, canEnable, t));
    JoinSendable(a, b);
    JoinSendable(a + b, c);
    JoinSendable(a + b + c, d);
    JoinSendable(a + b + c + d, e);
    JoinSendable(a + b + c + d + e, f);
  }

  lemma HandledSendable(l: Link, st: Store, e: Event, io: Samples, now: uint64)
    requires Ordered(l) && Readable(l, e)
    ensures AllSendable(Handle(l, st, e, io, now).enqueued)
  {
    hide CommandPackets, CommandStore, Recorded, Noted;
    if Counts(l, e) {
      NotedTraffic(l, e);
      var a := Answered(Noted(l, e));
      if Fires(a) {
        CommandSendable(Recorded(st, e, io), io, a.canEnable, a.deviceReset, TargetOf(a));
      }
    }
  }

  // ---- Every run ----

  /** What was written since the transaction started is the frames of the packets no longer queued. */
  predicate Carried(base: seq<seq<byte>>, v: Traffic) {
    && |v.link.queue| <= |v.enqueued|
    && var n := |v.enqueued| - |v.link.queue|;
    && v.link.queue == v.enqueued[n..]
    && base <= v.wire
    && Joined(v.wire[|base|..]) == EncodeAll(v.enqueued[..n])
  }

  predicate Faithful(s: Session) {
    var v := s.both.traffic;
    && Sound(v.link)
    && (!Complete(v.link) ==> v.enqueued == [])
    && AllSendable(v.enqueued)
    && Carried(s.base, v)
  }

  lemma {:induction false} JoinedAppend(a: seq<seq<byte>>, b: seq<seq<byte>>)
    ensures Joined(a + b) == Joined(a) + Joined(b)
  {
    if a == [] {
      assert a + b == b;
    } else {
      JoinedAppend(a[1..], b);
      assert (a + b)[1..] == a[1..] + b && (a + b)[0] == a[0];
    }
  }

  lemma JoinedWritten(sent: seq<Packet>)
    ensures Joined(Written(sent)) == EncodeAll(sent)
  {
    hide EncodeAll;
    EncodingIsLong(sent);
    assert [EncodeAll(sent)][1..] == [];
  }

  lemma SuffixMoves<T>(enqueued: seq<T>, queue: seq<T>, added: seq<T>, sent: seq<T>, rest: seq<T>)
    requires |queue| <= |enqueued| && queue == enqueued[|enqueued| - |queue|..]
    requires sent + rest == queue + added
    ensures |rest| <= |enqueued + added|
    ensures var n := |enqueued + added| - |rest|;
            (enqueued + added)[n..] == rest && (enqueued + added)[..n] == enqueued[..|enqueued| - |queue|] + sent
  {
    var m := |enqueued| - |queue|;
    assert enqueued + added == enqueued[..m] + (sent + rest);
  }

  lemma WireMoves(base: seq<seq<byte>>, wire: seq<seq<byte>>, sent: seq<Packet>)
    requires base <= wire
    ensures base <= wire + Written(sent)
    ensures Joined((wire + Written(sent))[|base|..]) == Joined(wire[|base|..]) + EncodeAll(sent)
  {
    JoinedWritten(sent);
    assert (wire + Written(sent))[|base|..] == wire[|base|..] + Written(sent);
    JoinedAppend(wire[|base|..], Written(sent));
  }

  /** Any call that moves packets from the queue to the wire in order keeps the wire faithful. */
  lemma OutcomeCarries(base: seq<seq<byte>>, v: Traffic, o: Outcome)
    requires Carried(base, v) && o.direct == []
    requires o.sent + o.link.queue == v.link.queue + o.enqueued
    ensures Carried(base, After(v, o))
  {
    hide EncodeAll, Joined;
    var n := |v.enqueued| - |v.link.queue|;
    SuffixMoves(v.enqueued, v.link.queue, o.enqueued, o.sent, o.link.queue);
    WireMoves(base, v.wire, o.sent);
    EncodeAllAppend(v.enqueued[..n], o.sent);
    NothingDirect(v.wire + Written(o.sent));
    hide Written;
  }

  lemma FreshlyCarried(v: Traffic)
    requires v.enqueued == [] && v.link.queue == []
    ensures Carried(v.wire, v)
  {
  }

  /** A received frame, as an outcome. */
  lemma FrameOutcome(s: Session, e: Event, io: Samples, now: uint64)
    requires Faithful(s) && Readable(LinkOf(s), e)
    ensures var v, o, z := s.both.traffic, Handle(LinkOf(s), s.both.store, e, io, now), Continue(s, Received(e, io, now));
            && z.both.traffic == After(v, o) && z.base == (if Complete(v.link) then s.base else z.both.traffic.wire)
            && Sound(o.link) && AllSendable(o.enqueued) && o.sent + o.link.queue == v.link.queue + o.enqueued
            && (Complete(v.link) ==> o.direct == [] && Complete(o.link))
            && (!Complete(v.link) ==> o.enqueued == [] && o.link.queue == [])
  {
    hide Handle, Carried, AllSendable, Readable, Cuts, Counts, IsStray;
    var v := s.both.traffic;
    HandleExtends(v.link, s.both.store, e, io, now);
    HandleConservesQueue(v.link, s.both.store, e, io, now);
    ReadyIsEmpty(v.link, s.both.store, e, io, now);
    HandledSendable(v.link, s.both.store, e, io, now);
  }

  lemma FrameIsFaithful(s: Session, e: Event, io: Samples, now: uint64)
    requires Faithful(s) && Readable(LinkOf(s), e)
    ensures Faithful(Continue(s, Received(e, io, now)))
  {
    hide Handle, Carried, AllSendable, Readable, Continue, Complete, After;
    var v, o := s.both.traffic, Handle(LinkOf(s), s.both.store, e, io, now);
    FrameOutcome(s, e, io, now);
    Queued(v, o);
    if Complete(v.link) {
      OutcomeCarries(s.base, v, o);
      JoinSendable(v.enqueued, o.enqueued);
    } else {
      Empty(o.enqueued);
      FreshlyCarried(After(v, o));
    }
  }

  lemma Empty<T>(s: seq<T>)
    ensures [] + s == s && s + [] == s
  {
  }

  lemma Queued(v: Traffic, o: Outcome)
    ensures After(v, o).link == o.link && After(v, o).enqueued == v.enqueued + o.enqueued
  {
  }

  /** A flush, as an outcome. */
  lemma FlushOutcome(v: Traffic, st: Store)
    ensures var o := Outcome(Flush(v.link).0, st, [], Flush(v.link).1, [], false);
            && FlushedTraffic(v) == After(v, o)
            && o.sent + o.link.queue == v.link.queue + o.enqueued
            && o.link == v.link.(queue := o.link.queue, window := o.link.window)
            && (v.link.queue == [] ==> o.link.queue == [])
  {
    hide FlushCount, Written;
    FlushConservesQueue(v.link);
    NothingDirect(v.wire + Written(Flush(v.link).1));
    assert v.enqueued + [] == v.enqueued && v.link.queue + [] == v.link.queue;
  }

  lemma FlushIsFaithful(s: Session)
    requires Faithful(s)
    ensures Faithful(Continue(s, EndOfRead))
  {
    hide Flush, Carried, AllSendable, After, FlushedTraffic;
    var v := s.both.traffic;
    FlushOutcome(v, s.both.store);
    var o := Outcome(Flush(v.link).0, s.both.store, [], Flush(v.link).1, [], false);
    Queued(v, o);
    Empty(v.enqueued);
    OutcomeCarries(s.base, v, o);
  }

  /** What a started transaction does, as an outcome from a link with nothing queued. */
  lemma StartedOutcome(s: Session, io: Samples, canEnable: bool, time: uint64)
    requires Faithful(s) && TickSafe(LinkOf(s)) && Starts(LinkOf(s), time, s.lastLoop)
    ensures var v := s.both.traffic;
            var o := OnUpdate(v.link, s.both.store, io, canEnable, time, s.lastLoop).outcome;
            && Updated(s.both, io, canEnable, time, s.lastLoop).traffic == After(Traffic(v.link.(queue := []), [], v.wire), o)
            && Sound(o.link) && Complete(o.link)
            && o.direct == [] && AllSendable(o.enqueued) && o.sent + o.link.queue == [] + o.enqueued
  {
    hide OnUpdate, InitialPackets, EncodeAll, Joined, Synchronized, Opened, Carried, AllSendable, Written;
    var v, st := s.both.traffic, s.both.store;
    UpdateInSteps(s.both, io, canEnable, time, s.lastLoop);
    UpdateExtends(v.link, st, io, canEnable, time, s.lastLoop);
    UpdateConservesQueue(v.link, st, io, canEnable, time, s.lastLoop);
    UpdateShape(v.link, st, io, canEnable, time, s.lastLoop);
    InitialSendable(st, io, TargetOf(v.link));
  }

  lemma StartedSession(s: Session, io: Samples, canEnable: bool, time: uint64)
    requires Faithful(s) && TickSafe(LinkOf(s)) && Starts(LinkOf(s), time, s.lastLoop)
    ensures var z := Continue(s, TimerTick(io, canEnable, time));
            && z.base == s.both.traffic.wire
            && z.both.traffic == Updated(s.both, io, canEnable, time, s.lastLoop).traffic
  {
    hide Carried, AllSendable, Updated, OnUpdate;
    UpdateInSteps(s.both, io, canEnable, time, s.lastLoop);
  }

  lemma StartedIsFaithful(s: Session, io: Samples, canEnable: bool, time: uint64)
    requires Faithful(s) && TickSafe(LinkOf(s)) && Starts(LinkOf(s), time, s.lastLoop)
    ensures Faithful(Continue(s, TimerTick(io, canEnable, time)))
  {
    hide OnUpdate, Updated, Carried, AllSendable, Written, WrittenDirect, Continue;
    var v := s.both.traffic;
    StartedSession(s, io, canEnable, time);
    StartedOutcome(s, io, canEnable, time);
    var o := OnUpdate(v.link, s.both.store, io, canEnable, time, s.lastLoop).outcome;
    var blank := Traffic(v.link.(queue := []), [], v.wire);
    FreshlyCarried(blank);
    OutcomeCarries(v.wire, blank, o);
    Empty(o.enqueued);
  }

  /** A tick that starts nothing, as an outcome. */
  lemma QuietOutcome(s: Session, io: Samples, canEnable: bool, time: uint64)
    requires Faithful(s) && TickSafe(LinkOf(s)) && !Starts(LinkOf(s), time, s.lastLoop)
    ensures var v, z := s.both.traffic, Continue(s, TimerTick(io, canEnable, time));
            var o := OnUpdate(v.link, s.both.store, io, canEnable, time, s.lastLoop).outcome;
            && z.both.traffic == After(v, o) && z.base == (if Complete(v.link) then s.base else z.both.traffic.wire)
            && Sound(o.link) && o.enqueued == [] && o.sent == [] && o.link.queue == v.link.queue
            && Complete(o.link) == Complete(v.link) && (Complete(v.link) ==> o.direct == [])
  {
    hide InitialPackets, InitialStore, Carried, AllSendable, Written, WrittenDirect;
    var v, st := s.both.traffic, s.both.store;
    SynchronizeIsQuiet(v.link, time);
    hide Synchronize;
  }

  lemma QuietTickIsFaithful(s: Session, io: Samples, canEnable: bool, time: uint64)
    requires Faithful(s) && TickSafe(LinkOf(s)) && !Starts(LinkOf(s), time, s.lastLoop)
    ensures Faithful(Continue(s, TimerTick(io, canEnable, time)))
  {
    hide OnUpdate, Carried, AllSendable, Continue, After;
    var v := s.both.traffic;
    QuietOutcome(s, io, canEnable, time);
    var o := OnUpdate(v.link, s.both.store, io, canEnable, time, s.lastLoop).outcome;
    Queued(v, o);
    Empty(v.enqueued);
    Empty(v.link.queue);
    if Complete(v.link) {
      OutcomeCarries(s.base, v, o);
    } else {
      FreshlyCarried(After(v, o));
    }
  }

  lemma CallIsFaithful(s: Session, c: Call)
    requires Faithful(s) && Able(s, c)
    ensures Faithful(Continue(s, c))
  {
    match c
    case Received(e, io, now) => FrameIsFaithful(s, e, io, now);
    case EndOfRead => FlushIsFaithful(s);
    case TimerTick(io, canEnable, time) =>
      if Starts(LinkOf(s), time, s.lastLoop) {
        StartedIsFaithful(s, io, canEnable, time);
      } else {
        QuietTickIsFaithful(s, io, canEnable, time);
      }
  }

  lemma NewSessionIsFaithful(st: Store, now: uint64, lastLoop: uint64)
    ensures Faithful(NewSession(st, now, lastLoop))
  {
    hide Carried, Synchronize, ForgetAll, Joined, EncodeAll;
    SynchronizeIsQuiet(NEW_LINK, now);
    FreshlyCarried(Attached(st, now).traffic);
  }

  /** In every run, whatever is received: the wire carries the current transaction's frames, a prefix of what was enqueued. */
  lemma {:induction false} EveryRunIsFaithful(s: Session, calls: seq<Call>)
    requires Faithful(s) && AbleAll(s, calls)
    ensures Faithful(ContinueAll(s, calls))
    decreases |calls|
  {
    hide AllSendable, Carried, Sound, Continue, Able;
    if calls != [] {
      CallIsFaithful(s, calls[0]);
      EveryRunIsFaithful(Continue(s, calls[0]), calls[1..]);
    }
  }

  /**
   * End to end: a framer at the far end, fed what this transaction has written in whatever chunks the writes make,
   * delivers exactly the packets that are no longer queued, in order and with good checksums, and waits for the next.
   */
  lemma HubReceivesWhatWasSent(s: Session, calls: seq<Call>)
    requires Faithful(s) && AbleAll(s, calls)
    ensures var z := ContinueAll(s, calls);
            var v := z.both.traffic;
            && z.base <= v.wire && |v.link.queue| <= |v.enqueued|
            && var done := v.enqueued[..|v.enqueued| - |v.link.queue|];
            var fed := FeedChunks(Idle(0, 0), v.wire[|z.base|..]);
            && v.enqueued == done + v.link.queue
            && fed.delivered == Deliveries(done)
            && fed.parser.mode == FirstByte && fed.parser.storage == [] && fed.parser.crc == 0
  {
    hide ContinueAll, EncodeAll, Joined, FeedChunks, Deliveries, Sound, AbleAll;
    EveryRunIsFaithful(s, calls);
    var z := ContinueAll(s, calls);
    var v := z.both.traffic;
    var done := v.enqueued[..|v.enqueued| - |v.link.queue|];
    assert forall p | p in done :: Sendable(p);
    StreamRoundTrip(done, 0, v.wire[|z.base|..]);
  }
}
