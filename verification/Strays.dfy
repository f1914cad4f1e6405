/**
 * What one stray does. A refused or corrupted answer to the last handshake frame is charged to a window nothing was
 * written to: the counter wraps to 255, every transaction writes its opening batch at once, and one whose opening
 * batch is bare never issues its command batch.
 */
module Strays {
  import opened Batches
  import opened Bytes
  import opened Calls
  import opened Messages
  import opened Protocol
  import opened Runs
  import opened Stores
  import opened Wrappers

  /** Ready to send, with a counter that has wrapped below zero. */
  predicate Stuck(l: Link) {
    Complete(l) && l.sendState == ReadyToSend && l.queue == [] && l.window == 255
  }

  // ---- One stray wraps the counter ----

  lemma StrayWraps(l: Link, st: Store, e: Event, io: Samples, now: uint64)
    requires Sound(l) && Readable(l, e) && Counts(l, e) && !e.Reply?
    requires l.sendState == ReadyToSend && l.window == 0
    ensures var o := Handle(l, st, e, io, now); o.link == l.(window := 255) && !o.fired
  {
    hide IssueCommands, Recorded;
  }

  lemma AckFinishes(l: Link, st: Store, io: Samples, now: uint64)
    requires Ordered(l) && l.address.Some? && l.interfaceId.Some?
    ensures Handle(l, st, FtdiAck, io, now).link == l.(ftdiDone := true, discoverStart := 0)
  {
    hide IssueCommands;
  }

  lemma Twice(s: Session, c: Call, d: Call)
    requires Sound(LinkOf(s)) && Able(s, c) && Sound(LinkOf(Continue(s, c))) && Able(Continue(s, c), d)
    ensures AbleAll(s, [c, d]) && ContinueAll(s, [c, d]) == Continue(Continue(s, c), d)
  {
    hide Sound, Able, Continue;
    ContinueIsSound(s, c);
    ContinueIsSound(Continue(s, c), d);
    var z := Continue(s, c);
    assert [c, d][1..] == [d] && [d][1..] == [];
    NothingCalled(Continue(z, d));
    assert AbleAll(z, [d]) && ContinueAll(z, [d]) == Continue(z, d);
  }

  /** The last handshake frame is refused, or its answer arrives corrupted; its repetition is then acknowledged. */
  lemma StrayMakesStuck(s: Session, e: Event, io: Samples, now: uint64, later: uint64)
    requires Sound(LinkOf(s)) && LinkOf(s).window == 0
    requires LinkOf(s).address.Some? && LinkOf(s).interfaceId.Some? && !LinkOf(s).ftdiDone
    requires e.Corrupt? || (e.Nack? && e.reference == MESSAGE_FTDI_RESET_CONTROL && e.payload != [])
    ensures var calls := [Received(e, io, now), Received(FtdiAck, io, later)];
            AbleAll(s, calls) && Stuck(LinkOf(ContinueAll(s, calls)))
  {
    hide Handle, Continue;
    StrayWraps(LinkOf(s), s.both.store, e, io, now);
    ContinueIsSound(s, Received(e, io, now));
    FrameLink(s, e, io, now);
    var z := Continue(s, Received(e, io, now));
    AckFinishes(LinkOf(z), z.both.store, io, later);
    FrameLink(z, FtdiAck, io, later);
    Twice(s, Received(e, io, now), Received(FtdiAck, io, later));
  }

  lemma FrameLink(s: Session, e: Event, io: Samples, now: uint64)
    requires Sound(LinkOf(s)) && Readable(LinkOf(s), e)
    ensures var z, o := Continue(s, Received(e, io, now)), Handle(LinkOf(s), s.both.store, e, io, now);
            && LinkOf(z) == o.link && z.both.store == o.store && z.lastLoop == s.lastLoop
            && z.batches == (if o.fired then s.batches + 1 else s.batches)
  {
    hide Handle, Readable, Counts, Cuts;
  }

  // ---- What a stuck link does ----

  /** The whole opening batch goes out in one write, past the limit of eight. */
  lemma StuckSendsAll(l: Link, st: Store, io: Samples, canEnable: bool, now: uint64, lastLoop: uint64)
    requires Stuck(l)
    ensures var u, ps := OnUpdate(l, st, io, canEnable, now, lastLoop), InitialPackets(st, io, TargetOf(l));
            && u.started && u.lastLoop == now && u.outcome.sent == ps && u.outcome.store == InitialStore(st, io)
            && u.outcome.link == l.(canEnable := canEnable, haveBattery := false, haveBulk := false, haveStatus := false,
                                    sendState := WaitingForPackets, window := (|ps| - 1) % 0x100)
  {
    hide InitialPackets, InitialStore;
    OpeningSize(st, io, TargetOf(l));
    var ps := InitialPackets(st, io, TargetOf(l));
    assert [] + ps == ps && ps[..|ps|] == ps;
  }

  /** A transaction whose frames are all answered by replies, in the order they were sent. */
  datatype Round = Round(
    io: Samples, canEnable: bool, time: uint64,
    keepAlive: seq<byte>, status: seq<byte>, battery: seq<byte>, bulk: seq<byte>)

  /** The replies are long enough to read, and the opening batch has its four requests and nothing else. */
  predicate Plain(st: Store, r: Round) {
    |r.status| >= 1 && |r.battery| >= 2 && |r.bulk| >= 26 && Bare(st, r.io)
  }

  function Replied(r: Round, number: byte, payload: seq<byte>): Call {
    Received(Reply(number, payload), r.io, r.time)
  }

  function CallsOf(r: Round): seq<Call> {
    [TimerTick(r.io, r.canEnable, r.time),
     Replied(r, MESSAGE_KEEP_ALIVE, r.keepAlive), Replied(r, MESSAGE_MODULE_STATUS, r.status),
     Replied(r, MESSAGE_BATTERY_VOLTAGE, r.battery), Replied(r, MESSAGE_BULK_INPUT, r.bulk), EndOfRead]
  }

  /** The caches and the encoder requests are the same. */
  ghost predicate SameSetup(st: Store, st': Store) {
    && (forall r: Register :: CacheOf(st', r) == CacheOf(st, r))
    && forall i: MotorIndex ::
         st'.motors[i].doReset == st.motors[i].doReset && st'.motors[i].lastResetTime == st.motors[i].lastResetTime
  }

  /** A request's reply that releases no batch. */
  lemma PlainReply(l: Link, st: Store, number: byte, payload: seq<byte>, io: Samples, now: uint64)
    requires Ordered(l) && MESSAGE_BULK_INPUT <= number <= MESSAGE_BATTERY_VOLTAGE
    requires Readable(l, Reply(number, payload)) && !Fires(NoteReply(l, number, payload))
    ensures var o := Handle(l, st, Reply(number, payload), io, now);
            && !o.fired && o.link == Finish(Answered(NoteReply(l, number, payload))) && SameSetup(st, o.store)
  {
    hide IssueCommands;
    PlainRecord(st, number, payload, io);
    hide RecordReply;
  }

  lemma EncodersKeepSetup(st: Store, payload: seq<byte>, io: Samples)
    requires |payload| >= 26
    ensures SameSetup(st, BulkEncoders(st, payload, io))
  {
    hide ReadInt32, ReadInt16;
    var st' := BulkEncoders(st, payload, io);
    forall i: MotorIndex
      ensures st'.motors[i] == st.motors[i].(position := st'.motors[i].position, velocity := st'.motors[i].velocity)
    {
    }
  }

  lemma PlainRecord(st: Store, number: byte, payload: seq<byte>, io: Samples)
    requires MESSAGE_BULK_INPUT <= number <= MESSAGE_BATTERY_VOLTAGE
    requires Readable(NEW_LINK, Reply(number, payload))
    ensures SameSetup(st, RecordReply(st, number, payload, io))
  {
    hide BulkEncoders, ReadInt16;
    if number == MESSAGE_BULK_INPUT {
      hide SameSetup, CacheOf;
      EncodersKeepSetup(st, payload, io);
    }
  }

  /** The three replies, one after the other: the third makes the link ready, and the fourth comes too late. */
  lemma PlainReplies(l: Link, st: Store, r: Round)
    requires Complete(l) && l.sendState == WaitingForPackets && l.queue == [] && l.window == 3
    requires !l.haveBattery && !l.haveBulk && !l.haveStatus
    requires |r.status| >= 1 && |r.battery| >= 2 && |r.bulk| >= 26
    ensures var a := Handle(l, st, Reply(MESSAGE_KEEP_ALIVE, r.keepAlive), r.io, r.time);
            var b := Handle(a.link, a.store, Reply(MESSAGE_MODULE_STATUS, r.status), r.io, r.time);
            var c := Handle(b.link, b.store, Reply(MESSAGE_BATTERY_VOLTAGE, r.battery), r.io, r.time);
            var d := Handle(c.link, c.store, Reply(MESSAGE_BULK_INPUT, r.bulk), r.io, r.time);
            && !a.fired && !b.fired && !c.fired && !d.fired
            && Sound(a.link) && Sound(b.link) && Sound(c.link)
            && c.link.sendState == ReadyToSend && Stuck(d.link) && HaveAll(d.link)
            && SameSetup(st, d.store)
  {
    hide Handle, SameSetup;
    PlainReply(l, st, MESSAGE_KEEP_ALIVE, r.keepAlive, r.io, r.time);
    var a := Handle(l, st, Reply(MESSAGE_KEEP_ALIVE, r.keepAlive), r.io, r.time);
    PlainReply(a.link, a.store, MESSAGE_MODULE_STATUS, r.status, r.io, r.time);
    var b := Handle(a.link, a.store, Reply(MESSAGE_MODULE_STATUS, r.status), r.io, r.time);
    PlainReply(b.link, b.store, MESSAGE_BATTERY_VOLTAGE, r.battery, r.io, r.time);
    var c := Handle(b.link, b.store, Reply(MESSAGE_BATTERY_VOLTAGE, r.battery), r.io, r.time);
    PlainReply(c.link, c.store, MESSAGE_BULK_INPUT, r.bulk, r.io, r.time);
    var d := Handle(c.link, c.store, Reply(MESSAGE_BULK_INPUT, r.bulk), r.io, r.time);
    SetupTrans(st, a.store, b.store);
    SetupTrans(st, b.store, c.store);
    SetupTrans(st, c.store, d.store);
  }

  lemma SetupTrans(a: Store, b: Store, c: Store)
    requires SameSetup(a, b) && SameSetup(b, c)
    ensures SameSetup(a, c)
  {
    hide CacheOf;
  }

  lemma SetupKeepsBare(st: Store, st': Store, io: Samples)
    requires SameSetup(st, st') && Bare(st, io)
    ensures Bare(st', io)
  {
    hide CacheOf;
  }

  lemma TickOf(s: Session, io: Samples, canEnable: bool, time: uint64)
    requires Sound(LinkOf(s)) && Stuck(LinkOf(s)) && Bare(s.both.store, io)
    ensures var z := Continue(s, TimerTick(io, canEnable, time));
            && Complete(LinkOf(z)) && LinkOf(z).sendState == WaitingForPackets && LinkOf(z).queue == []
            && LinkOf(z).window == 3 && !LinkOf(z).haveBattery && !LinkOf(z).haveBulk && !LinkOf(z).haveStatus
            && z.both.store == s.both.store && z.batches == 0
  {
    hide OnUpdate, InitialPackets, InitialStore;
    StuckSendsAll(LinkOf(s), s.both.store, io, canEnable, time, s.lastLoop);
    OpeningSize(s.both.store, io, TargetOf(LinkOf(s)));
  }

  lemma FlushNothing(s: Session)
    requires LinkOf(s).queue == []
    ensures var z := s.(both := FlushedBoth(s.both), written := s.written + |Flush(LinkOf(s)).1|);
            LinkOf(z) == LinkOf(s) && z.both.store == s.both.store && z.batches == s.batches
  {
  }

  lemma First(s: Session, calls: seq<Call>)
    requires calls != [] && Sound(LinkOf(s)) && Able(s, calls[0])
    ensures Sound(LinkOf(Continue(s, calls[0])))
    ensures AbleAll(s, calls) <==> AbleAll(Continue(s, calls[0]), calls[1..])
    ensures AbleAll(s, calls) ==> ContinueAll(s, calls) == ContinueAll(Continue(s, calls[0]), calls[1..])
  {
    ContinueIsSound(s, calls[0]);
  }

  /** A stuck link with a bare opening batch gets all its replies, issues nothing and is stuck again. */
  lemma RoundIsSkipped(s: Session, r: Round)
    requires Sound(LinkOf(s)) && Stuck(LinkOf(s)) && Plain(s.both.store, r)
    ensures AbleAll(s, CallsOf(r))
    ensures var z := ContinueAll(s, CallsOf(r));
            && Stuck(LinkOf(z)) && HaveAll(LinkOf(z)) && z.batches == 0
            && SameSetup(s.both.store, z.both.store)
  {
    hide Continue, Handle, SameSetup, Bare;
    var calls := CallsOf(r);
    TickOf(s, r.io, r.canEnable, r.time);
    First(s, calls);
    var t := Continue(s, calls[0]);
    PlainReplies(LinkOf(t), t.both.store, r);
    FrameLink(t, calls[1].event, r.io, r.time);
    First(t, calls[1..]);
    var a := Continue(t, calls[1]);
    FrameLink(a, calls[2].event, r.io, r.time);
    First(a, calls[2..]);
    var b := Continue(a, calls[2]);
    FrameLink(b, calls[3].event, r.io, r.time);
    First(b, calls[3..]);
    var c := Continue(b, calls[3]);
    FrameLink(c, calls[4].event, r.io, r.time);
    First(c, calls[4..]);
    var d := Continue(c, calls[4]);
    LastFlush(d, calls[5..]);
  }

  lemma LastFlush(s: Session, calls: seq<Call>)
    requires Sound(LinkOf(s)) && LinkOf(s).queue == [] && calls == [EndOfRead]
    ensures AbleAll(s, calls)
    ensures var z := ContinueAll(s, calls);
            LinkOf(z) == LinkOf(s) && z.both.store == s.both.store && z.batches == s.batches
  {
    First(s, calls);
    FlushNothing(s);
  }

  // ---- For ever ----

  function AllCalls(rounds: seq<Round>): seq<Call> {
    if rounds == [] then [] else CallsOf(rounds[0]) + AllCalls(rounds[1..])
  }

  lemma {:induction false} RunsInParts(s: Session, a: seq<Call>, b: seq<Call>)
    requires Sound(LinkOf(s)) && AbleAll(s, a)
    ensures Sound(LinkOf(ContinueAll(s, a)))
    ensures AbleAll(s, a + b) <==> AbleAll(ContinueAll(s, a), b)
    ensures AbleAll(s, a + b) ==> ContinueAll(s, a + b) == ContinueAll(ContinueAll(s, a), b)
    decreases |a|
  {
    hide Sound, Able, Continue;
    if a == [] {
      assert a + b == b;
    } else {
      ContinueIsSound(s, a[0]);
      RunsInParts(Continue(s, a[0]), a[1..], b);
      assert (a + b)[1..] == a[1..] + b && (a + b)[0] == a[0];
    }
  }

  /**
   * However many transactions follow, each of them fully answered by replies: none issues a command batch, the link
   * is ready each time, so that no recovery ever sets the counter right, and every cache stays as it was.
   */
  lemma {:induction false} StuckNeverIssues(s: Session, rounds: seq<Round>)
    requires Sound(LinkOf(s)) && Stuck(LinkOf(s))
    requires forall r :: r in rounds ==> Plain(s.both.store, r)
    ensures AbleAll(s, AllCalls(rounds))
    ensures var z := ContinueAll(s, AllCalls(rounds));
            && Stuck(LinkOf(z)) && (rounds != [] ==> HaveAll(LinkOf(z)) && z.batches == 0)
            && forall r: Register :: CacheOf(z.both.store, r) == CacheOf(s.both.store, r)
    decreases |rounds|
  {
    hide Continue, CacheOf, Bare, Stuck, Sound, CallsOf, HaveAll, ContinueAll, AbleAll;
    if rounds == [] {
      NothingCalled(s);
    } else {
      RoundIsSkipped(s, rounds[0]);
      RunsInParts(s, CallsOf(rounds[0]), AllCalls(rounds[1..]));
      var z := ContinueAll(s, CallsOf(rounds[0]));
      forall r | r in rounds[1..] ensures Plain(z.both.store, r) {
        assert Plain(s.both.store, r);
        SetupKeepsBare(s.both.store, z.both.store, r.io);
      }
      StuckNeverIssues(z, rounds[1..]);
      NothingCalled(z);
    }
  }

  lemma NothingCalled(s: Session)
    requires Sound(LinkOf(s))
    ensures AbleAll(s, []) && ContinueAll(s, []) == s
  {
  }
}
