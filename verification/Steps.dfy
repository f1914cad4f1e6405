/** Every step keeps the invariant. */
module Steps {
  import opened Batches
  import opened Bytes
  import opened Caches
  import opened Frames
  import opened Messages
  import opened Protocol
  import opened Replies
  import opened Stores
  import opened World
  import opened Wrappers

  // ---- A reply to a handshake request ----

  lemma HandshakeReplyIsInOrder(w: World, number: byte, e: Event)
    requires HandshakeInv(w) && HandshakeFits(w, number, e)
    ensures Readable(w.link, e) && !Counts(w.link, e)
    ensures Truthful(e, w.hub) && Knows(w.link, w.hub)
  {
  }

  lemma NumbersOfOne(ps: seq<Packet>)
    requires |ps| <= 1
    ensures Numbers(ps) == if ps == [] then {} else {ps[0].number as int}
  {
    if ps != [] {
      assert ps == [ps[0]];
    }
  }

  lemma NumbersJoin(a: seq<Packet>, b: seq<Packet>)
    ensures Numbers(a + b) == Numbers(a) + Numbers(b)
  {
    forall n ensures n in Numbers(a + b) <==> n in Numbers(a) + Numbers(b) {
      if n in Numbers(a) {
        var p :| p in a && p.number as int == n;
        assert p in a + b;
      }
      if n in Numbers(b) {
        var p :| p in b && p.number as int == n;
        assert p in a + b;
      }
    }
  }

  /** The handshake request that is due comes after all that were made before. */
  lemma DueIsNext(l: Link, asked: seq<Packet>, direct: seq<Packet>)
    requires InStages(asked) && |direct| <= 1
    requires 2 in Numbers(asked) ==> l.address.Some?
    requires 1 in Numbers(asked) ==> l.interfaceId.Some?
    requires l.interfaceId.Some? ==> l.address.Some?
    requires direct != [] ==> direct[0].number == if l.address.None? then MESSAGE_DISCOVER
                                                 else if l.interfaceId.None? then MESSAGE_QUERY_INTERFACE
                                                 else MESSAGE_FTDI_RESET_CONTROL
    ensures InStages(asked + direct)
  {
    forall i | 0 <= i < |asked| ensures asked[i].number as int in Numbers(asked) {
      assert asked[i] in asked;
    }
  }

  lemma GreetKeepsHandshake(w: World, number: byte, e: Event, now: uint64)
    requires HandshakeInv(w) && HandshakeFits(w, number, e)
    ensures Readable(w.link, e)
    ensures var (l', direct) := Greet(w.link, e, now);
            HandshakeInv(w.(link := l', asked := w.asked + direct))
  {
    hide Greet, Understood, Interpret, Numbers, InStages, ReadUint16;
    HandshakeReplyIsInOrder(w, number, e);
    GreetIsQuiet(w.link, e, now);
    var (l', direct) := Greet(w.link, e, now);
    GreetMeans(w.link, e, now, w.hub);
    NumbersOfOne(direct);
    NumbersJoin(w.asked, direct);
    DueIsNext(l', w.asked, direct);
  }

  lemma AbsorbQuietly(w: World, o: Outcome, io: Samples)
    requires o.enqueued == [] && o.sent == [] && !o.fired
    ensures Absorb(w, o, io) == w.(link := o.link, store := o.store, asked := w.asked + o.direct)
  {
    assert w.log + [] == w.log;
    assert w.open + Interval(w.written, w.written) == w.open;
  }

  lemma DeliverHandshakeKeepsInv(w: World, number: byte, e: Event, io: Samples, now: uint64)
    requires Inv(w) && HandshakeFits(w, number, e)
    ensures Readable(w.link, e)
    ensures Inv(Deliver(w, Handshake(number, e, io, now)))
  {
    hide Handle, Absorb, FlowInv, PhaseInv, StatusInv, RestInv, LogInv, CacheInv, EncoderInv, SampleInv, HandshakeInv,
         HandshakeFits, Greet;
    HandshakeReplyIsInOrder(w, number, e);
    GreetingOutcome(w, number, e, io, now);
    GreetKeepsHandshake(w, number, e, now);
    GreetIsQuiet(w.link, e, now);
    var o := Handle(w.link, w.store, e, io, now);
    AbsorbQuietly(w, o, io);
    var w' := w.(link := o.link, store := o.store, asked := w.asked + o.direct);
    HandshakeIgnoresStore(w.(link := o.link, asked := w.asked + o.direct), o.store);
    KeepQuietly(w, w');
  }

  /** A handshake reply, as an outcome. */
  lemma GreetingOutcome(w: World, number: byte, e: Event, io: Samples, now: uint64)
    requires HandshakeInv(w) && HandshakeFits(w, number, e)
    ensures Ordered(w.link) && Readable(w.link, e)
    ensures var o, (l', direct) := Handle(w.link, w.store, e, io, now), Greet(w.link, e, now);
            && o.link == l' && o.direct == direct && o.enqueued == [] && o.sent == [] && !o.fired
            && SameCommands(w.store, o.store)
  {
    hide Greet, Interpret, Understood, Numbers, InStages;
    HandshakeReplyIsInOrder(w, number, e);
  }

  lemma HandshakeIgnoresStore(w: World, st: Store)
    requires HandshakeInv(w)
    ensures HandshakeInv(w.(store := st))
  {
  }

  /** A change to the handshake fields and the counters only. */
  lemma KeepQuietly(w: World, w': World)
    requires Inv(w) && HandshakeInv(w')
    requires SameTransaction(w.link, w'.link) && SameTables(w, w')
    ensures Inv(w')
  {
    hide FlowInv, HandshakeInv, PhaseInv, StatusInv, RestInv, LogInv, CacheInv, EncoderInv, SampleInv, SameTables;
    SameTablesKeep(w, w');
    KeepFlow(w, w');
    KeepPhase(w, w');
  }

  lemma KeepFlow(w: World, w': World)
    requires FlowInv(w) && RestInv(w) && SameTransaction(w.link, w'.link) && SameTables(w, w')
    ensures FlowInv(w') && RestInv(w')
  {
    hide WindowFlow, Unwritten;
  }

  lemma KeepPhase(w: World, w': World)
    requires PhaseInv(w) && StatusInv(w)
    requires SameTransaction(w.link, w'.link) && SameTables(w, w')
    ensures PhaseInv(w') && StatusInv(w')
  {
  }

  // ---- The flush that ends a read ----

  lemma FlushedFields(w: World)
    ensures var (l', sent) := Flush(w.link);
            && Flushed(w) == w.(link := l', written := w.written + |sent|,
                                open := w.open + Interval(w.written, w.written + |sent|))
            && l' == w.link.(queue := l'.queue, window := l'.window)
  {
    hide Flush, Interval;
    FlushKeepsState(w.link);
    assert w.log + [] == w.log;
    assert w.asked + [] == w.asked;
  }

  /** With nothing queued a flush writes nothing. */
  lemma EmptyFlush(w: World)
    requires w.link.queue == []
    ensures Flush(w.link) == (w.link, []) && Flushed(w) == w
  {
    FlushedFields(w);
    assert w.link.queue[0..] == w.link.queue;
    assert w.open + Interval(w.written, w.written) == w.open;
  }

  lemma WindowFits(w: World)
    requires FlowInv(w)
    ensures w.link.window <= MAX_NUM_OUTSTANDING_MESSAGES
    ensures w.link.sendState == ReadyToSend ==> w.link.queue == []
  {
    hide Interval, Unwritten;
  }

  lemma NothingAdded<T>(a: seq<T>)
    ensures a + [] == a
  {
  }

  lemma FlushedFlow(w: World)
    requires FlowInv(w)
    ensures FlowInv(Flushed(w))
    ensures Flushed(w).link.queue == [] || Flushed(w).link.window == MAX_NUM_OUTSTANDING_MESSAGES
    ensures |Flushed(w).open| + |Flushed(w).link.queue| == |w.open| + |w.link.queue|
    ensures w.open <= Flushed(w).open
  {
    hide FlowInv, Flushed, Flush, Interval, FlushCount;
    FlushedFields(w);
    FlushWithinRange(w);
    NothingAdded(w.log);
    NothingAdded(w.link.queue);
    if w.link.queue == [] {
      EmptyFlush(w);
    } else {
      GrowFlow(w, Flushed(w), [], |Flush(w.link).1|);
    }
  }

  lemma FlushWithinRange(w: World)
    requires FlowInv(w)
    ensures w.link.window <= MAX_NUM_OUTSTANDING_MESSAGES
    ensures w.link.sendState == ReadyToSend ==> w.link.queue == []
    ensures var (l', sent) := Flush(w.link);
            && l'.queue == w.link.queue[|sent|..] && |sent| <= |w.link.queue|
            && l'.window == w.link.window + |sent| <= MAX_NUM_OUTSTANDING_MESSAGES
            && (l'.queue == [] || l'.window == MAX_NUM_OUTSTANDING_MESSAGES)
  {
    hide FlowInv, Flush;
    WindowFits(w);
    FlushWithinWindow(w.link);
  }

  lemma FlushedTables(w: World)
    requires FlowInv(w) && LogInv(w) && CacheInv(w) && EncoderInv(w) && SampleInv(w)
    ensures LogInv(Flushed(w)) && CacheInv(Flushed(w)) && EncoderInv(Flushed(w)) && SampleInv(Flushed(w))
  {
    hide Interpret, CacheOf, Understood, Distinct, SampledCode, Suppressed, Holds, Fits, Flushed, Flush, Interval;
    FlushedFields(w);
    var w' := Flushed(w);
    forall r: Register ensures CacheTrue(w', r) { assert CacheTrue(w, r); }
    forall k: nat | k < |w.log| ensures FrameTrue(w', k) { assert FrameTrue(w, k); }
    forall k: nat | k < |w.log| && k in w'.outbox ensures AnswerTrue(w', k) { FitsSame(w, w', k); assert AnswerTrue(w, k); }
    forall j: nat | j < |w'.dead| ensures DeadTrue(w', w'.dead[j]) { assert DeadTrue(w, w.dead[j]); }
    if w.batches == 1 {
      forall r: Register ensures SampleTrue(w', r) { assert SampleTrue(w, r); }
      forall i: nat | i < |w.log| ensures FrameSampled(w', w'.log[i]) { assert FrameSampled(w, w.log[i]); }
    }
  }

  lemma FlushedPhase(w: World)
    requires HandshakeInv(w) && PhaseInv(w) && StatusInv(w)
    ensures HandshakeInv(Flushed(w)) && PhaseInv(Flushed(w)) && StatusInv(Flushed(w))
  {
    hide Flush, Flushed, Interval;
    FlushedFields(w);
  }

  lemma FlushedRest(w: World)
    requires FlowInv(w) && RestInv(w)
    ensures RestInv(Flushed(w))
  {
    hide Flush, Flushed, Interval, FlowInv;
    FlushedFlow(w);
    FlushedFields(w);
  }

  lemma FlushedKeepsInv(w: World)
    requires Inv(w)
    ensures Inv(Flushed(w))
  {
    hide FlowInv, HandshakeInv, PhaseInv, StatusInv, RestInv, LogInv, CacheInv, EncoderInv, SampleInv, Flushed;
    FlushedFlow(w);
    FlushedTables(w);
    FlushedPhase(w);
    FlushedRest(w);
  }

  // ---- The hub works off a frame ----

  lemma ProcessDeadTables(w: World, applied: bool)
    requires CacheInv(w) && SampleInv(w) && w.dead != [] && w.outbox.Keys == {}
    ensures CacheInv(ProcessDead(w, applied)) && SampleInv(ProcessDead(w, applied))
  {
    hide Interpret, CacheOf, Fits, SampledCode, Suppressed, Holds;
    var w' := ProcessDead(w, applied);
    assert DeadTrue(w, w.dead[0]);
    forall r: Register ensures CacheTrue(w', r) { assert CacheTrue(w, r); }
    forall k: nat | k < |w.log| ensures FrameTrue(w', k) { assert FrameTrue(w, k); }
    forall j: nat | j < |w'.dead| ensures DeadTrue(w', w'.dead[j]) { assert DeadTrue(w, w.dead[j + 1]); }
    if w.batches == 1 {
      forall r: Register ensures SampleTrue(w', r) { assert SampleTrue(w, r); }
      forall i: nat | i < |w.log| ensures FrameSampled(w', w'.log[i]) { assert FrameSampled(w, w.log[i]); }
    }
  }

  lemma ProcessDeadKeepsInv(w: World, applied: bool)
    requires Inv(w) && w.dead != []
    ensures Inv(ProcessDead(w, applied))
  {
    var w' := ProcessDead(w, applied);
    assert w.processed == 0 && w.outbox.Keys <= Interval(0, 0) == {};
    ProcessDeadTables(w, applied);
    hide CacheInv, SampleInv, WindowFlow, Unwritten, Interpret, Understood, Distinct;
    assert EncoderInv(w') && LogInv(w') && HandshakeInv(w');
    assert FlowInv(w') && PhaseInv(w') && StatusInv(w') && RestInv(w');
  }

  lemma ProcessFlow(w: World, applied: bool, answer: Option<Event>)
    requires FlowInv(w) && w.processed < w.written <= |w.log|
    ensures FlowInv(ProcessLive(w, applied, answer))
    ensures w.processed in w.open
  {
    hide Unwritten, Interval;
    assert w.processed in Interval(w.processed, w.written);
    var w' := ProcessLive(w, applied, answer);
    assert w'.outbox.Keys <= w.outbox.Keys + {w.processed};
  }

  lemma ProcessTables(w: World, applied: bool, answer: Option<Event>)
    requires FlowInv(w) && HandshakeInv(w) && LogInv(w) && CacheInv(w)
    requires w.dead == [] && CanProcess(w, applied, answer)
    ensures CacheInv(ProcessLive(w, applied, answer))
  {
    hide Interpret, CacheOf, Fits, LogInv, FlowInv, HandshakeInv, StatusFits;
    var w', p := ProcessLive(w, applied, answer), w.log[w.processed];
    ProcessFlow(w, applied, answer);
    assert FrameTrue(w, w.processed);
    var a := ActionOf(w, p);
    forall k: nat | k < |w.log| && k != w.processed
      ensures a.Write? && ActionOf(w, w.log[k]).Write? ==> ActionOf(w, w.log[k]).register != a.register
    {
      if a.Write? && ActionOf(w, w.log[k]).Write? { SameRegisterSameNumber(w, w.processed, k); }
    }
    AnswersAreEarlier(w);
    NewAnswerTrue(w, applied, answer);
    forall r: Register ensures CacheTrue(w', r) { assert CacheTrue(w, r); }
    forall k: nat | k < |w.log| ensures FrameTrue(w', k) { assert FrameTrue(w, k); }
    forall k: nat | k < |w.log| && k in w'.outbox ensures AnswerTrue(w', k) {
      if k != w.processed {
        assert AnswerTrue(w, k);
        FitsIgnoresWorld(w, w', w.log[k], w.outbox[k]);
        AnswerSurvives(w, applied, answer, k);
      }
    }
  }

  lemma FitsIgnoresWorld(w: World, w': World, p: Packet, e: Event)
    ensures Fits(w, p, e) == Fits(w', p, e)
  {
  }

  lemma AnswersAreEarlier(w: World)
    requires FlowInv(w)
    ensures forall k :: k in w.outbox ==> k < w.processed
  {
    hide Interval;
  }

  /** At most one frame of a transaction reads the status. */
  lemma OneStatusRequest(w: World, i: nat, k: nat)
    requires LogInv(w) && i < |w.log| && k < |w.log| && i != k
    ensures !(ActionOf(w, w.log[i]).ReadStatus? && ActionOf(w, w.log[k]).ReadStatus?)
  {
    hide Interpret;
    assert Understood(w.hub, w.log[i]) && Understood(w.hub, w.log[k]);
  }

  lemma AnswerSurvives(w: World, applied: bool, answer: Option<Event>, k: nat)
    requires FlowInv(w) && LogInv(w) && CanProcess(w, applied, answer) && w.dead == []
    requires k < |w.log| && k in w.outbox && k != w.processed && AnswerTrue(w, k)
    requires var a, b := ActionOf(w, w.log[w.processed]), ActionOf(w, w.log[k]);
             a.Write? && b.Write? ==> a.register != b.register
    ensures AnswerTrue(ProcessLive(w, applied, answer), k)
  {
    hide Interpret, Fits, LogInv, FlowInv, StatusFits;
    OneStatusRequest(w, w.processed, k);
    FitsIgnoresWorld(w, ProcessLive(w, applied, answer), w.log[k], w.outbox[k]);
  }

  lemma NewAnswerTrue(w: World, applied: bool, answer: Option<Event>)
    requires LogInv(w) && CanProcess(w, applied, answer) && w.dead == []
    ensures answer.Some? ==> AnswerTrue(ProcessLive(w, applied, answer), w.processed)
  {
    if answer.Some? {
      var w', p, e := ProcessLive(w, applied, answer), w.log[w.processed], answer.value;
      assert Understood(w.hub, p);
      FitsIgnoresWorld(w, w', p, e);
      assert e.Reply? && p.number == MESSAGE_MODULE_STATUS ==> |e.payload| >= 1;
      hide Interpret, Fits, LogInv;
    }
  }

  lemma ProcessEncoder(w: World, applied: bool, answer: Option<Event>)
    requires EncoderInv(w) && w.processed < w.written <= |w.log|
    ensures EncoderInv(ProcessLive(w, applied, answer))
  {
    hide Interpret;
  }

  lemma ProcessPhase(w: World, applied: bool, answer: Option<Event>)
    requires PhaseInv(w) && StatusInv(w) && LogInv(w) && w.processed < w.written <= |w.log|
    ensures PhaseInv(ProcessLive(w, applied, answer))
  {
    assert Understood(w.hub, w.log[w.processed]);
    hide Interpret, LogInv;
  }

  lemma ProcessLiveKeepsInv(w: World, applied: bool, answer: Option<Event>)
    requires Inv(w) && w.dead == [] && CanProcess(w, applied, answer)
    ensures Inv(ProcessLive(w, applied, answer))
  {
    hide FlowInv, HandshakeInv, PhaseInv, StatusInv, RestInv, LogInv, CacheInv, EncoderInv, SampleInv, ProcessLive, Fits,
         StatusFits;
    InBounds(w);
    ProcessFlow(w, applied, answer);
    ProcessTables(w, applied, answer);
    ProcessEncoder(w, applied, answer);
    ProcessPhase(w, applied, answer);
    ProcessLog(w, applied, answer);
    ProcessSample(w, applied, answer);
  }

  lemma InBounds(w: World)
    requires FlowInv(w)
    ensures w.processed <= w.written <= |w.log|
  {
    hide Interval;
  }

  lemma ProcessLog(w: World, applied: bool, answer: Option<Event>)
    requires HandshakeInv(w) && RestInv(w) && LogInv(w) && StatusInv(w) && w.processed < w.written <= |w.log|
    ensures var w' := ProcessLive(w, applied, answer); HandshakeInv(w') && RestInv(w') && LogInv(w') && StatusInv(w')
  {
    hide Interpret, Understood, Distinct, Perform;
  }

  lemma ProcessSample(w: World, applied: bool, answer: Option<Event>)
    requires SampleInv(w) && w.processed < w.written <= |w.log|
    ensures SampleInv(ProcessLive(w, applied, answer))
  {
    hide Interpret, CacheOf, SampledCode, Suppressed, Holds, Perform;
    var w' := ProcessLive(w, applied, answer);
    if w.batches == 1 {
      forall r: Register ensures SampleTrue(w', r) { assert SampleTrue(w, r); }
      forall i: nat | i < |w.log| ensures FrameSampled(w', w'.log[i]) { assert FrameSampled(w, w.log[i]); }
    }
  }

  // ---- The timer ----

  /** The link that starts a transaction, its opening batch enqueued and nothing written. */
  function Opening(l: Link, st: Store, io: Samples, canEnable: bool): Link
    requires l.address.Some? && l.interfaceId.Some?
  {
    l.(canEnable := canEnable, haveBattery := false, haveBulk := false, haveStatus := false,
       sendState := WaitingForPackets, queue := InitialPackets(st, io, TargetOf(l)), window := 0)
  }

  lemma UpdateOpens(l: Link, st: Store, io: Samples, canEnable: bool, now: uint64, lastLoop: uint64)
    requires Ordered(l) && TickSafe(l) && (l.sendState == ReadyToSend ==> l.queue == [] && l.window == 0)
    requires OnUpdate(l, st, io, canEnable, now, lastLoop).started
    ensures l.ftdiDone && l.address.Some? && l.interfaceId.Some?
    ensures var (l', sent) := Flush(Opening(l, st, io, canEnable));
            OnUpdate(l, st, io, canEnable, now, lastLoop) ==
            Update(Outcome(l', InitialStore(st, io), InitialPackets(st, io, TargetOf(l)), sent, [], false), now, true)
  {
    hide InitialPackets, InitialStore;
    var ps := InitialPackets(st, io, TargetOf(l));
    assert [] + ps == ps;
  }

  /** The world after a transaction has started. */
  function Opened(w: World, io: Samples, canEnable: bool, now: uint64): World
    requires w.link.address.Some? && w.link.interfaceId.Some?
    requires w.processed <= w.written <= |w.log|
  {
    var (l', sent) := Flush(Opening(w.link, w.store, io, canEnable));
    Restarted(w, io, canEnable).(link := l', store := InitialStore(w.store, io),
                      log := InitialPackets(w.store, io, TargetOf(w.link)),
                      written := |sent|, open := Interval(0, |sent|), lastLoop := now)
  }

  lemma TickOpens(w: World, io: Samples, canEnable: bool, now: uint64)
    requires FlowInv(w) && Ordered(w.link) && TickSafe(w.link)
    requires OnUpdate(w.link, w.store, io, canEnable, now, w.lastLoop).started
    ensures w.link.ftdiDone && w.link.address.Some? && w.link.interfaceId.Some?
    ensures w.processed <= w.written <= |w.log|
    ensures Tick(w, io, canEnable, now) == Opened(w, io, canEnable, now)
  {
    UpdateOpens(w.link, w.store, io, canEnable, now, w.lastLoop);
    var u := OnUpdate(w.link, w.store, io, canEnable, now, w.lastLoop);
    hide OnUpdate, InitialPackets, InitialStore, Flush, Opening, WindowFlow, Unwritten, Interval;
    AbsorbFresh(Restarted(w, io, canEnable), u.outcome, io);
    hide Absorb;
  }

  lemma AbsorbFresh(v: World, o: Outcome, io: Samples)
    requires v.log == [] && v.written == 0 && v.open == {} && o.direct == [] && !o.fired
    ensures Absorb(v, o, io) ==
            v.(link := o.link, store := o.store, log := o.enqueued, written := |o.sent|, open := Interval(0, |o.sent|))
  {
    assert [] + o.enqueued == o.enqueued;
    assert v.asked + [] == v.asked;
    assert {} + Interval(0, 0 + |o.sent|) == Interval(0, |o.sent|);
  }

  lemma OpenedFlow(w: World, io: Samples, canEnable: bool, now: uint64)
    requires w.processed <= w.written <= |w.log| && w.link.address.Some? && w.link.interfaceId.Some?
    ensures var w' := Opened(w, io, canEnable, now);
            && FlowInv(w') && RestInv(w')
            && |w'.open| + |w'.link.queue| <= 14
            && (w'.link.queue == [] || w'.link.window == MAX_NUM_OUTSTANDING_MESSAGES)
            && w'.link.sendState == WaitingForPackets
  {
    hide FlowInv, InitialPackets, InitialStore, Flush, Opened, WindowFlow, Interval;
    OpeningSize(w.store, io, TargetOf(w.link));
    FlushWithinWindow(Opening(w.link, w.store, io, canEnable));
    OpenedFields(w, io, canEnable, now);
    StartedWindow(|Flush(Opening(w.link, w.store, io, canEnable)).1|);
    assert FlowInv(Opened(w, io, canEnable, now)) by { FreshFlow(Opened(w, io, canEnable, now)); }
  }

  lemma FreshFlow(w: World)
    requires w.link.sendState == WaitingForPackets && w.processed == 0 && w.outbox == map[]
    requires w.link.window == w.written <= MAX_NUM_OUTSTANDING_MESSAGES && w.open == Interval(0, w.written)
    requires w.written <= |w.log| && w.link.queue == w.log[w.written..]
    ensures FlowInv(w)
  {
    hide WindowFlow, Interval;
    StartedWindow(w.written);
    assert w.outbox.Keys == {};
  }

  lemma OpenedFields(w: World, io: Samples, canEnable: bool, now: uint64)
    requires w.link.address.Some? && w.link.interfaceId.Some? && w.processed <= w.written <= |w.log|
    ensures var w' := Opened(w, io, canEnable, now);
            var (l', sent) := Flush(Opening(w.link, w.store, io, canEnable));
            && w'.link == l' && w'.log == InitialPackets(w.store, io, TargetOf(w.link)) && w'.written == |sent|
            && w'.open == Interval(0, |sent|) && w'.processed == 0 && w'.outbox == map[]
  {
    hide InitialPackets, InitialStore, Flush, Opening, Interval;
  }

  lemma OpenedLink(l: Link, st: Store, io: Samples, canEnable: bool)
    requires l.address.Some? && l.interfaceId.Some?
    ensures var l' := Flush(Opening(l, st, io, canEnable)).0;
            l' == l.(canEnable := canEnable, haveBattery := false, haveBulk := false, haveStatus := false,
                     sendState := WaitingForPackets, queue := l'.queue, window := l'.window)
  {
    hide InitialPackets;
  }

  lemma OpenedLog(w: World, io: Samples, canEnable: bool, now: uint64)
    requires FlowInv(w) && HandshakeInv(w) && w.link.ftdiDone
    ensures var w' := Opened(w, io, canEnable, now);
            PhaseInv(w') && StatusInv(w') && HandshakeInv(w') && LogInv(w')
  {
    OpeningBatch(w.store, io, TargetOf(w.link));
    OpenedPhase(w, io, canEnable, now);
    OpenedLink(w.link, w.store, io, canEnable);
    hide InitialPackets, InitialStore, Flush, Opening, Understood, Distinct, Holds, FlowInv, Interval, HandshakeInv,
         PhaseInv, StatusInv;
  }

  /** Behind the first eight frames of an opening batch there are only pulse widths. */
  lemma AwaitedGoFirst(st: Store, io: Samples, t: Target)
    ensures var ps := InitialPackets(st, io, t);
            forall i :: MAX_NUM_OUTSTANDING_MESSAGES <= i < |ps| ==> !IsAwaited(ps[i].number as int)
  {
    hide Flatten, ResetPhase, PulsePhase, InitialStore;
    var xs := PulsePhase(io, t);
    var front := [KeepAlive(t), ModuleStatus(t)] + Flatten(ResetPhase(InitialStore(st, io), t)) +
                 [BatteryRequest(t), BulkInput(t)];
    AtMostOneEach(InitialStore(st, io), io, t);
    PulseNumbers(io, t);
    assert InitialPackets(st, io, t) == front + Flatten(xs) && |front| <= 8;
  }

  lemma PulseNumbers(io: Samples, t: Target)
    ensures Within(Flatten(PulsePhase(io, t)), MESSAGE_SERVO_PULSE_WIDTH_0, MESSAGE_MOTOR_ENABLE_0)
  {
    hide Flatten;
    PhaseNumbers(PulsePhase(io, t), MESSAGE_SERVO_PULSE_WIDTH_0);
  }

  lemma OpenedAwaited(w: World, io: Samples, canEnable: bool, now: uint64)
    requires w.processed <= w.written <= |w.log| && w.link.address.Some? && w.link.interfaceId.Some?
    ensures var w' := Opened(w, io, canEnable, now);
            forall i: nat :: w'.written <= i < |w'.log| ==> !IsAwaited(w'.log[i].number as int)
  {
    hide InitialPackets, Flush, Opened, IsAwaited;
    AwaitedGoFirst(w.store, io, TargetOf(w.link));
    OpenedFields(w, io, canEnable, now);
    FlushWithinWindow(Opening(w.link, w.store, io, canEnable));
  }

  lemma OpenedPhase(w: World, io: Samples, canEnable: bool, now: uint64)
    requires w.processed <= w.written <= |w.log|
    requires HandshakeInv(w) && w.link.ftdiDone
    ensures var w' := Opened(w, io, canEnable, now); PhaseInv(w') && StatusInv(w') && HandshakeInv(w')
  {
    hide InitialPackets, InitialStore, Interval, IsAwaited;
    OpenedLink(w.link, w.store, io, canEnable);
    OpenedAwaited(w, io, canEnable, now);
    var w' := Opened(w, io, canEnable, now);
    assert w'.link == Flush(Opening(w.link, w.store, io, canEnable)).0;
    assert w'.replied == {} && w'.batches == 0 && w'.asked == w.asked;
    hide Opened, Flush, Opening;
  }

  lemma OpenedEncoder(w: World, io: Samples, canEnable: bool, now: uint64)
    requires w.processed <= w.written <= |w.log| && w.link.address.Some? && w.link.interfaceId.Some?
    requires EncoderInv(w)
    ensures EncoderInv(Opened(w, io, canEnable, now))
  {
    hide InitialPackets, Flush, Opening, Interval;
  }

  lemma StartedWindow(n: nat)
    requires n <= MAX_NUM_OUTSTANDING_MESSAGES
    ensures WindowFlow(n, 0, Interval(0, n), {}, n)
    ensures n > 0 ==> Interval(0, n) != {}
  {
    hide Interval;
  }

  lemma OpenedRegisters(w: World, io: Samples, canEnable: bool, now: uint64)
    requires FlowInv(w) && CacheInv(w) && w.link.address.Some? && w.link.interfaceId.Some?
    ensures var w' := Opened(w, io, canEnable, now);
            && (forall r: Register :: CacheTrue(w', r))
            && (forall j: nat :: j < |w'.dead| ==> DeadTrue(w', w'.dead[j]))
  {
    OpenedLink(w.link, w.store, io, canEnable);
    StartedDead(w);
    hide InitialPackets, InitialStore, Flush, Opening, CacheOf, Interpret, FlowInv, Interval;
    var w' := Opened(w, io, canEnable, now);
    forall r: Register ensures CacheOf(w'.store, r) == CacheOf(w.store, r) {
      InitialCaches(w.store, io, r);
    }
    forall r: Register ensures CacheTrue(w', r) { assert CacheTrue(w, r); }
    forall j: nat | j < |w'.dead| ensures DeadTrue(w', w'.dead[j]) {
      assert DeadTrue(w, (w.dead + w.log[w.processed..w.written])[j]);
    }
  }

  lemma OpenedTables(w: World, io: Samples, canEnable: bool, now: uint64)
    requires FlowInv(w) && HandshakeInv(w) && LogInv(w) && CacheInv(w) && w.link.ftdiDone
    ensures var w' := Opened(w, io, canEnable, now); CacheInv(w') && SampleInv(w')
  {
    OpenedLog(w, io, canEnable, now);
    OpenedRegisters(w, io, canEnable, now);
    var w' := Opened(w, io, canEnable, now);
    assert w'.batches == 0 && w'.outbox == map[] && w'.processed == 0;
    hide Opened, CacheTrue, DeadTrue, LogInv, PhaseInv, StatusInv, HandshakeInv, FlowInv, Interpret, CacheOf;
    forall k: nat | k < |w'.log| ensures FrameTrue(w', k) { OpeningFramesWriteNothing(w', k); }
  }

  /** The frames that die with a transaction are unanswered: their registers' caches hold nothing. */
  lemma StartedDead(w: World)
    requires FlowInv(w) && CacheInv(w)
    ensures var dead := w.dead + w.log[w.processed..w.written];
            forall j :: 0 <= j < |dead| ==> DeadTrue(w, dead[j])
  {
    hide Interpret, CacheOf, Interval;
    var dead := w.dead + w.log[w.processed..w.written];
    forall j | 0 <= j < |dead| ensures DeadTrue(w, dead[j]) {
      if j < |w.dead| {
        assert DeadTrue(w, w.dead[j]);
      } else {
        var k: nat := w.processed + (j - |w.dead|);
        assert dead[j] == w.log[k] && k in Interval(w.processed, w.written);
        assert FrameTrue(w, k);
      }
    }
  }

  lemma TickKeepsInv(w: World, io: Samples, canEnable: bool, now: uint64)
    requires Inv(w)
    ensures Inv(Tick(w, io, canEnable, now))
  {
    var u := OnUpdate(w.link, w.store, io, canEnable, now, w.lastLoop);
    if u.started {
      TickOpens(w, io, canEnable, now);
      OpenedFlow(w, io, canEnable, now);
      OpenedLog(w, io, canEnable, now);
      OpenedTables(w, io, canEnable, now);
      OpenedEncoder(w, io, canEnable, now);
      hide FlowInv, HandshakeInv, PhaseInv, StatusInv, RestInv, LogInv, CacheInv, EncoderInv, SampleInv, Tick, OnUpdate,
           Opened;
    } else {
      TickQuietly(w, io, canEnable, now);
    }
  }

  /** An update that starts nothing: a handshake step, or a missed loop. */
  lemma QuietUpdate(l: Link, st: Store, io: Samples, canEnable: bool, now: uint64, lastLoop: uint64)
    requires Ordered(l) && TickSafe(l) && (l.sendState == ReadyToSend ==> l.queue == [])
    requires !OnUpdate(l, st, io, canEnable, now, lastLoop).started
    ensures var o := OnUpdate(l, st, io, canEnable, now, lastLoop).outcome;
            && o.enqueued == [] && o.sent == [] && !o.fired && SameCommands(st, o.store)
            && o.link == l.(discoverStart := o.link.discoverStart) && Ordered(o.link)
            && o.direct == (if l.ftdiDone then [] else Synchronize(l, now).1) && |o.direct| <= 1
            && (o.direct != [] ==>
                  && !l.ftdiDone
                  && o.direct[0].number == if l.address.None? then MESSAGE_DISCOVER
                                           else if l.interfaceId.None? then MESSAGE_QUERY_INTERFACE
                                           else MESSAGE_FTDI_RESET_CONTROL)
  {
    hide InitialPackets, InitialStore;
  }

  /** A tick that starts nothing at most asks the next handshake question. */
  predicate AsksNext(l: Link, direct: seq<Packet>) {
    && |direct| <= 1
    && (direct != [] ==>
          && !l.ftdiDone
          && direct[0].number == if l.address.None? then MESSAGE_DISCOVER
                                 else if l.interfaceId.None? then MESSAGE_QUERY_INTERFACE
                                 else MESSAGE_FTDI_RESET_CONTROL)
  }

  lemma AskingKeepsHandshake(w: World, w': World, direct: seq<Packet>)
    requires HandshakeInv(w) && AsksNext(w.link, direct) && forall p | p in direct :: Understood(w.hub, p)
    requires w'.link == w.link.(discoverStart := w'.link.discoverStart) && w'.asked == w.asked + direct
    requires w'.log == w.log && w'.dead == w.dead && w'.hub == w.hub
    ensures HandshakeInv(w')
  {
    hide Numbers, InStages;
    NumbersOfOne(direct);
    NumbersJoin(w.asked, direct);
    DueIsNext(w.link, w.asked, direct);
  }

  lemma QuietUpdateKeepsInv(w: World, o: Outcome, lastLoop: uint64)
    requires Inv(w) && SameCommands(w.store, o.store)
    requires o.link == w.link.(discoverStart := o.link.discoverStart) && AsksNext(w.link, o.direct)
    requires forall p | p in o.direct :: Understood(w.hub, p)
    ensures Inv(w.(link := o.link, store := o.store, asked := w.asked + o.direct, lastLoop := lastLoop))
  {
    hide FlowInv, HandshakeInv, PhaseInv, StatusInv, RestInv, LogInv, CacheInv, EncoderInv, SampleInv, AsksNext;
    var w' := w.(link := o.link, store := o.store, asked := w.asked + o.direct, lastLoop := lastLoop);
    AskingKeepsHandshake(w, w', o.direct);
    KeepQuietly(w, w');
  }

  lemma TickQuietly(w: World, io: Samples, canEnable: bool, now: uint64)
    requires Inv(w) && !OnUpdate(w.link, w.store, io, canEnable, now, w.lastLoop).started
    ensures Inv(Tick(w, io, canEnable, now))
  {
    hide LogInv, CacheInv, EncoderInv, SampleInv, StatusInv, PhaseInv, RestInv, Interval, Unwritten, WindowFlow;
    QuietUpdate(w.link, w.store, io, canEnable, now, w.lastLoop);
    var u := OnUpdate(w.link, w.store, io, canEnable, now, w.lastLoop);
    SynchronizeMeans(w.link, now, w.hub);
    AbsorbQuietly(w, u.outcome, io);
    hide OnUpdate, FlowInv, HandshakeInv, Absorb;
    QuietUpdateKeepsInv(w, u.outcome, u.lastLoop);
  }

  // ---- Power cycle, reconnect, start ----

  function PowerCycled(w: World, registers: Register -> int): World {
    w.(device := Device(registers, true, w.device.zeroed), unacted := true)
  }

  lemma PowerCycleTables(w: World, registers: Register -> int)
    requires CacheInv(w) && SampleInv(w)
    ensures CacheInv(PowerCycled(w, registers)) && SampleInv(PowerCycled(w, registers))
  {
    hide Interpret, CacheOf, Fits, SampledCode, Suppressed, Holds;
    var w' := PowerCycled(w, registers);
    forall k: nat | k < |w.log| ensures FrameTrue(w', k) { assert FrameTrue(w, k); }
    forall k: nat | k < |w.log| && k in w'.outbox ensures AnswerTrue(w', k) {
      assert AnswerTrue(w, k);
      FitsIgnoresWorld(w, w', w.log[k], w.outbox[k]);
    }
    forall j: nat | j < |w'.dead| ensures DeadTrue(w', w'.dead[j]) { assert DeadTrue(w, w.dead[j]); }
    if w.batches == 1 {
      forall r: Register ensures SampleTrue(w', r) { assert SampleTrue(w, r); }
      forall i: nat | i < |w.log| ensures FrameSampled(w', w'.log[i]) { assert FrameSampled(w, w.log[i]); }
    }
  }

  lemma PowerCycleLink(w: World, registers: Register -> int)
    requires FlowInv(w) && HandshakeInv(w) && PhaseInv(w) && RestInv(w)
    ensures var w' := PowerCycled(w, registers); FlowInv(w') && HandshakeInv(w') && PhaseInv(w') && RestInv(w')
  {
    hide WindowFlow, Unwritten;
  }

  lemma PowerCycleLog(w: World, registers: Register -> int)
    requires StatusInv(w) && LogInv(w) && EncoderInv(w)
    ensures var w' := PowerCycled(w, registers); StatusInv(w') && LogInv(w') && EncoderInv(w')
  {
    hide Understood, Distinct;
  }

  lemma PowerCycleKeepsInv(w: World, registers: Register -> int)
    requires Inv(w)
    ensures Inv(PowerCycled(w, registers))
  {
    hide FlowInv, HandshakeInv, PhaseInv, StatusInv, RestInv, LogInv, CacheInv, EncoderInv, SampleInv, PowerCycled;
    PowerCycleTables(w, registers);
    PowerCycleLink(w, registers);
    PowerCycleLog(w, registers);
  }

  /** A world with a fresh link, nothing on the wire, and caches that hold nothing. */
  lemma BlankKeepsInv(w: World)
    requires w.link == NEW_LINK.(discoverStart := w.link.discoverStart)
    requires w.log == [] && w.written == w.processed == 0 && w.open == {} && w.outbox == map[] && w.dead == []
    requires (w.asked == [] || w.asked == [Discover()]) && UsableInterface(w.hub.interfaceId)
    requires w.replied == {} && w.batches == 0 && !w.allowed
    requires forall r: Register :: CacheOf(w.store, r).lastAcked.None?
    requires EncoderInv(w)
    ensures Inv(w)
  {
    hide CacheOf, Interpret, Understood;
    assert w.outbox.Keys == {};
    assert Interval(0, 0) == {};
    HandshakeUnderstood(w.hub);
  }

  lemma ForgottenStore(st: Store)
    ensures forall r: Register :: CacheOf(ForgetAll(st), r).lastAcked.None?
    ensures forall m: MotorIndex :: ForgetAll(st).motors[m].doReset == st.motors[m].doReset
  {
    forall r: Register ensures CacheOf(ForgetAll(st), r).lastAcked.None? {
      ForgetAllForgets(st, r);
    }
  }

  lemma CountersIgnored(st: Store, r: Register)
    ensures CacheOf(st.(numNacks := 0, numCrcFailures := 0, numMissedSendLoops := 0), r) == CacheOf(st, r)
  {
  }

  lemma ReconnectKeepsInv(w: World, values: Register -> int, flag: bool, now: uint64, hub: Target)
    requires Inv(w) && UsableInterface(hub.interfaceId)
    ensures Inv(Reconnected(w, values, flag, now, hub))
  {
    hide FlowInv, HandshakeInv, PhaseInv, StatusInv, RestInv, LogInv, CacheInv, SampleInv;
    ForgottenStore(w.store);
    var st := Afresh(w.store);
    forall r: Register ensures CacheOf(st, r).lastAcked.None? { CountersIgnored(ForgetAll(w.store), r); }
    var (l, direct) := Synchronize(NEW_LINK, now);
    assert l == NEW_LINK.(discoverStart := l.discoverStart) && (direct == [] || direct == [Discover()]);
    var blank := World(NEW_LINK, w.store, w.lastLoop, Device(values, flag, [0, 0, 0, 0]), [], 0, 0, {}, map[], [], [],
                       w.transaction, {}, 0, w.sampled, w.statusRead, false, [0, 0, 0, 0], w.observed, false, hub);
    AbsorbQuietly(blank, Outcome(l, st, [], [], direct, false), w.sampled);
    hide CacheOf, ForgetAll, Absorb, Synchronize;
    BlankKeepsInv(blank.(link := l, store := st, asked := [] + direct));
  }

  lemma StartHasInv(st: Store, lastLoop: uint64, registers: Register -> int, raised: bool, io: Samples,
                    hub: Target)
    requires Fresh(st) && UsableInterface(hub.interfaceId)
    ensures Inv(Start(st, lastLoop, registers, raised, io, hub))
  {
    hide CacheOf;
    BlankKeepsInv(Start(st, lastLoop, registers, raised, io, hub));
  }

  // ---- Reads ----

  ghost predicate AllDeliverable(w: World, picks: seq<Pick>)
    requires Inv(w)
    decreases |picks|
  {
    picks != [] ==>
      && CanDeliver(w, picks[0])
      && AllDeliverable(DeliverOne(w, picks[0]), picks[1..])
  }

  /** One frame handled: never a dereference of a missing address or interface id. */
  ghost function DeliverOne(w: World, pick: Pick): (w': World)
    requires Inv(w) && CanDeliver(w, pick)
    ensures Inv(w')
  {
    DeliverKeepsInv(w, pick);
    Deliver(w, pick)
  }

  lemma DeliverKeepsInv(w: World, pick: Pick)
    requires Inv(w) && CanDeliver(w, pick)
    ensures Ordered(w.link) && Readable(w.link, if pick.Queued? then w.outbox[pick.index] else pick.event)
    ensures Inv(Deliver(w, pick))
  {
    match pick
    case Queued(i, io, now) =>
      DeliverQueuedKeepsInv(w, i, io, now);
    case Handshake(number, e, io, now) =>
      DeliverHandshakeKeepsInv(w, number, e, io, now);
  }

  ghost function DeliverAll(w: World, picks: seq<Pick>): (w': World)
    requires Inv(w) && AllDeliverable(w, picks)
    ensures Inv(w')
    decreases |picks|
  {
    if picks == [] then w else DeliverAll(DeliverOne(w, picks[0]), picks[1..])
  }

  // ---- Runs ----

  ghost predicate Enabled(w: World, s: Step)
    requires Inv(w)
  {
    match s
    case Process(applied, answer) => CanProcess(w, applied, answer)
    case Read(picks) => AllDeliverable(w, picks)
    case Reconnect(_, _, _, hub) => UsableInterface(hub.interfaceId)
    case _ => true
  }

  ghost function Next(w: World, s: Step): (w': World)
    requires Inv(w) && Enabled(w, s)
    ensures Inv(w')
  {
    hide Core, RestInv, AllDeliverable, CanProcess;
    match s
    case Timer(io, canEnable, time) => TickKeepsInv(w, io, canEnable, time); Tick(w, io, canEnable, time)
    case Process(applied, answer) =>
      if w.dead != [] then ProcessDeadKeepsInv(w, applied); ProcessDead(w, applied)
      else ProcessLiveKeepsInv(w, applied, answer); ProcessLive(w, applied, answer)
    case Read(picks) => FlushedKeepsInv(DeliverAll(w, picks)); Flushed(DeliverAll(w, picks))
    case PowerCycle(registers) =>
      PowerCycleKeepsInv(w, registers); PowerCycled(w, registers)
    case Reconnect(values, flag, start, hub) => ReconnectKeepsInv(w, values, flag, start, hub); Reconnected(w, values, flag, start, hub)
  }

  ghost predicate AllEnabled(w: World, steps: seq<Step>)
    requires Inv(w)
    decreases |steps|
  {
    steps != [] ==> Enabled(w, steps[0]) && AllEnabled(Next(w, steps[0]), steps[1..])
  }

  /** The world after a run; every state on the way satisfies the invariant. */
  ghost function Run(w: World, steps: seq<Step>): (w': World)
    requires Inv(w) && AllEnabled(w, steps)
    ensures Inv(w')
    decreases |steps|
  {
    if steps == [] then w else Run(Next(w, steps[0]), steps[1..])
  }
}
