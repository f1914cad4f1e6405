/** After a reconnect nothing is held as acknowledged until a command batch, and the first batch writes every register. */
module Reconnects {
  import opened Batches
  import opened Bytes
  import opened Messages
  import opened Protocol
  import opened Replies
  import opened Steps
  import opened Stores
  import opened World
  import opened Wrappers

  /** No cache holds an acknowledged value, and this transaction has issued no batch. */
  ghost predicate Unwound(w: World) {
    w.batches == 0 && forall r: Register :: CacheOf(w.store, r).lastAcked.None?
  }

  lemma ReconnectUnwinds(w: World, values: Register -> int, flag: bool, start: uint64, hub: Target)
    requires Inv(w) && UsableInterface(hub.interfaceId)
    ensures Unwound(Next(w, Reconnect(values, flag, start, hub)))
  {
    hide Core, RestInv, CacheOf, ForgetAll, Synchronize;
    ForgottenStore(w.store);
    forall r: Register ensures CacheOf(Next(w, Reconnect(values, flag, start, hub)).store, r).lastAcked.None? {
      CountersIgnored(ForgetAll(w.store), r);
    }
  }

  /** Before a batch the only frames that can be answered write no register, so no answer acknowledges one. */
  lemma SettledUnwound(w: World, i: nat, io: Samples)
    requires Inv(w) && CanDeliver(w, Queued(i, io, 0)) && Unwound(w) && Readable(w.link, w.outbox[i])
    ensures Unwound(Settled(w, i, io))
  {
    hide RestInv, PhaseInv, StatusInv, EncoderInv, SampleInv, CacheOf, Recorded, Noted, Interpret;
    AnswerShape(w, i);
    OpeningFramesWriteNothing(w, i);
    forall r: Register ensures CacheOf(Settled(w, i, io).store, r).lastAcked.None? {
      RecordedCaches(w.store, w.outbox[i], io, r);
    }
  }

  lemma PickUnwound(w: World, pick: Pick)
    requires Inv(w) && CanDeliver(w, pick) && Unwound(w) && DeliverOne(w, pick).batches == 0
    ensures Unwound(DeliverOne(w, pick))
  {
    DeliverKeepsInv(w, pick);
    match pick
    case Queued(i, io, now) => QueuedUnwound(w, i, io, now);
    case Handshake(number, e, io, now) => GreetingUnwound(w, number, e, io, now);
  }

  lemma QueuedUnwound(w: World, i: nat, io: Samples, now: uint64)
    requires Inv(w) && CanDeliver(w, Queued(i, io, now)) && Unwound(w)
    requires Ordered(w.link) && Readable(w.link, w.outbox[i]) && Deliver(w, Queued(i, io, now)).batches == 0
    ensures Unwound(Deliver(w, Queued(i, io, now)))
  {
    hide RestInv, PhaseInv, StatusInv, EncoderInv, SampleInv, CacheOf, Settled, Issued, Deliver;
    SettledUnwound(w, i, io);
    AnswerShape(w, i);
    DeliverInParts(w, i, io, now);
    var w1 := Settled(w, i, io);
    if Fires(w1.link) {
      IssuedFields(w1, io);
    }
  }

  lemma GreetingUnwound(w: World, number: byte, e: Event, io: Samples, now: uint64)
    requires Inv(w) && HandshakeFits(w, number, e) && Unwound(w) && Ordered(w.link) && Readable(w.link, e)
    ensures Unwound(Deliver(w, Handshake(number, e, io, now)))
  {
    hide FlowInv, PhaseInv, StatusInv, LogInv, CacheInv, EncoderInv, SampleInv, RestInv, CacheOf, Greet, Recorded;
    HandshakeReplyIsInOrder(w, number, e);
    AbsorbQuietly(w, Handle(w.link, w.store, e, io, now), io);
    forall r: Register { RecordedCaches(w.store, e, io, r); }
  }

  lemma PickAddsBatches(w: World, pick: Pick)
    requires Inv(w) && CanDeliver(w, pick)
    ensures w.batches <= DeliverOne(w, pick).batches
  {
    DeliverKeepsInv(w, pick);
    match pick
    case Queued(i, io, now) => AnswerAndFlags(w, i, io, now);
    case Handshake(number, e, io, now) => GreetingIssuesNothing(w, number, e, io, now);
  }

  lemma GreetingIssuesNothing(w: World, number: byte, e: Event, io: Samples, now: uint64)
    requires Inv(w) && HandshakeFits(w, number, e) && Ordered(w.link) && Readable(w.link, e)
    ensures Deliver(w, Handshake(number, e, io, now)).batches == w.batches
  {
    hide FlowInv, PhaseInv, StatusInv, LogInv, CacheInv, EncoderInv, SampleInv, RestInv, Greet, Recorded;
    HandshakeReplyIsInOrder(w, number, e);
    AbsorbQuietly(w, Handle(w.link, w.store, e, io, now), io);
  }

  lemma {:induction false} PicksAddBatches(w: World, picks: seq<Pick>)
    requires Inv(w) && AllDeliverable(w, picks)
    ensures w.batches <= DeliverAll(w, picks).batches
    decreases |picks|
  {
    hide Inv, DeliverOne, CanDeliver;
    if picks != [] {
      PickAddsBatches(w, picks[0]);
      PicksAddBatches(DeliverOne(w, picks[0]), picks[1..]);
    }
  }

  lemma {:induction false} PicksUnwound(w: World, picks: seq<Pick>)
    requires Inv(w) && AllDeliverable(w, picks) && Unwound(w) && DeliverAll(w, picks).batches == 0
    ensures Unwound(DeliverAll(w, picks))
    decreases |picks|
  {
    hide Inv, DeliverOne, CanDeliver, CacheOf;
    if picks != [] {
      PicksAddBatches(DeliverOne(w, picks[0]), picks[1..]);
      PickUnwound(w, picks[0]);
      PicksUnwound(DeliverOne(w, picks[0]), picks[1..]);
    }
  }

  lemma TickUnwound(w: World, io: Samples, canEnable: bool, time: uint64)
    requires Inv(w) && Unwound(w)
    ensures Unwound(Tick(w, io, canEnable, time))
  {
    hide PhaseInv, StatusInv, RestInv, LogInv, CacheInv, EncoderInv, SampleInv, Interval, CacheOf, InitialPackets,
         InitialStore;
    var u := OnUpdate(w.link, w.store, io, canEnable, time, w.lastLoop);
    if u.started {
      TickOpens(w, io, canEnable, time);
      OpenedUnwound(w, io, canEnable, time);
      hide OnUpdate, Tick, Opened;
    } else {
      hide Opened;
      QuietUpdate(w.link, w.store, io, canEnable, time, w.lastLoop);
      AbsorbQuietly(w, u.outcome, io);
      forall r: Register ensures CacheOf(u.outcome.store, r) == CacheOf(w.store, r) {
        SameCommandsSameCaches(w.store, u.outcome.store, r);
      }
    }
  }

  lemma OpenedUnwound(w: World, io: Samples, canEnable: bool, now: uint64)
    requires w.processed <= w.written <= |w.log| && w.link.address.Some? && w.link.interfaceId.Some? && Unwound(w)
    ensures Unwound(Opened(w, io, canEnable, now))
  {
    hide CacheOf, InitialPackets, InitialStore, Flush, Opening, Interval;
    forall r: Register { InitialCaches(w.store, io, r); }
  }

  lemma SameCommandsSameCaches(st: Store, st': Store, r: Register)
    requires SameCommands(st, st')
    ensures CacheOf(st', r) == CacheOf(st, r)
  {
  }

  lemma StepUnwound(w: World, s: Step)
    requires Inv(w) && Enabled(w, s) && Unwound(w) && Next(w, s).batches == 0
    ensures Unwound(Next(w, s))
  {
    hide Core, RestInv, Tick, DeliverAll, Flush, Flushed, CacheOf, Reconnected;
    match s
    case Timer(io, canEnable, time) => TickUnwound(w, io, canEnable, time);
    case Process(_, _) =>
    case Read(picks) =>
      FlushedFields(DeliverAll(w, picks));
      PicksUnwound(w, picks);
    case PowerCycle(_) =>
    case Reconnect(values, flag, start, hub) => ReconnectUnwinds(w, values, flag, start, hub);
  }

  /** No batch is issued anywhere in the run. */
  ghost predicate NoBatch(w: World, steps: seq<Step>)
    requires Inv(w) && AllEnabled(w, steps)
    decreases |steps|
  {
    steps != [] ==> Next(w, steps[0]).batches == 0 && NoBatch(Next(w, steps[0]), steps[1..])
  }

  lemma {:induction false} RunUnwound(w: World, steps: seq<Step>)
    requires Inv(w) && AllEnabled(w, steps) && NoBatch(w, steps) && Unwound(w)
    ensures Unwound(Run(w, steps))
    decreases |steps|
  {
    hide Inv, Enabled, Next, Unwound;
    if steps != [] {
      assert Next(w, steps[0]).batches == 0;
      StepUnwound(w, steps[0]);
      RunUnwound(Next(w, steps[0]), steps[1..]);
    }
  }

  /** A batch from unwound caches writes every register, except frame periods of 0 and 1. */
  lemma FirstBatchWritesAll(w: World, i: nat, io: Samples, now: uint64, r: Register)
    requires Inv(w) && CanDeliver(w, Queued(i, io, now)) && Unwound(w)
    requires DeliverOne(w, Queued(i, io, now)).batches > w.batches
    ensures var z := DeliverOne(w, Queued(i, io, now));
            Holds(z.log, NumberOf(r)) || Suppressed(r, SampledCode(io, z.link.canEnable, r))
  {
    hide RestInv, StatusInv, EncoderInv, SampleInv, Settled, Issued, CommandPackets, CommandStore, Deliver, CacheOf,
         SampledCode, Suppressed, Holds, Flush, GoodPhase;
    DeliverKeepsInv(w, Queued(i, io, now));
    AnswerShape(w, i);
    SettledUnwound(w, i, io);
    SettleKeepsCore(w, i, io);
    DeliverInParts(w, i, io, now);
    var w1 := Settled(w, i, io);
    assert Fires(w1.link);
    IssuedFields(w1, io);
    var l := w1.link;
    ResetBatchWritesEverything(w1.store, io, l.canEnable, l.deviceReset, TargetOf(l), r);
    JoinHolds(w1.log, CommandPackets(w1.store, io, l.canEnable, l.deviceReset, TargetOf(l)), NumberOf(r));
  }

  /**
   * Reconnect convergence: however the run goes on after a device was added, as long as no batch was issued every
   * cache is empty, and the reply that releases the first batch enqueues a write to every register that can be sent.
   */
  lemma FirstBatchAfterReconnect(w: World, values: Register -> int, flag: bool, start: uint64, hub: Target,
                                 steps: seq<Step>,
                                 picks: seq<Pick>, i: nat, io: Samples, now: uint64, r: Register)
    requires Inv(w) && UsableInterface(hub.interfaceId)
    requires var v := Next(w, Reconnect(values, flag, start, hub));
             && AllEnabled(v, steps) && NoBatch(v, steps)
             && AllDeliverable(Run(v, steps), picks)
             && var z := DeliverAll(Run(v, steps), picks);
             z.batches == 0 && CanDeliver(z, Queued(i, io, now)) && DeliverOne(z, Queued(i, io, now)).batches > 0
    ensures var z := DeliverAll(Run(Next(w, Reconnect(values, flag, start, hub)), steps), picks);
            var y := DeliverOne(z, Queued(i, io, now));
            && CacheOf(z.store, r).lastAcked.None?
            && (Holds(y.log, NumberOf(r)) || Suppressed(r, SampledCode(io, y.link.canEnable, r)))
  {
    hide Inv, Next, Run, DeliverAll, DeliverOne, CanDeliver, CacheOf, Holds, Suppressed, SampledCode;
    var v := Next(w, Reconnect(values, flag, start, hub));
    ReconnectUnwinds(w, values, flag, start, hub);
    RunUnwound(v, steps);
    PicksUnwound(Run(v, steps), picks);
    FirstBatchWritesAll(DeliverAll(Run(v, steps), picks), i, io, now, r);
  }
}
