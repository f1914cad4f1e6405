/** A transaction ends: every answer brings the end nearer, and while it is not reached there is an answer to give. */
module Transactions {
  import opened Batches
  import opened Bytes
  import opened Guarantees
  import opened Messages
  import opened Protocol
  import opened Replies
  import opened Steps
  import opened Stores
  import opened World
  import opened Wrappers

  /** How many answers the transaction can still take: what is queued or unanswered, and a batch to come. */
  function Fuel(w: World): nat {
    |w.open| + |w.link.queue| + (if w.link.sendState == WaitingForPackets then 28 else 0)
  }

  function QueuedAnswers(picks: seq<Pick>): nat {
    if picks == [] then 0 else (if picks[0].Queued? then 1 else 0) + QueuedAnswers(picks[1..])
  }

  function Answers(steps: seq<Step>): nat {
    if steps == [] then 0
    else (if steps[0].Read? then QueuedAnswers(steps[0].picks) else 0) + Answers(steps[1..])
  }

  lemma AnswerBurnsFuel(w: World, pick: Pick)
    requires Inv(w) && CanDeliver(w, pick)
    ensures Fuel(DeliverOne(w, pick)) + (if pick.Queued? then 1 else 0) <= Fuel(w)
  {
    DeliverKeepsInv(w, pick);
    match pick
    case Queued(i, io, now) =>
      QueuedBurnsFuel(w, i, io, now);
    case Handshake(number, e, io, now) =>
      HandshakeReplyIsInOrder(w, number, e);
      GreetIsQuiet(w.link, e, now);
      hide Greet;
      AbsorbQuietly(w, Handle(w.link, w.store, e, io, now), io);
  }

  lemma QueuedBurnsFuel(w: World, i: nat, io: Samples, now: uint64)
    requires Inv(w) && i in w.outbox && i < |w.log| && Ordered(w.link) && Readable(w.link, w.outbox[i])
    ensures Fuel(Deliver(w, Queued(i, io, now))) + 1 <= Fuel(w)
  {
    SettleKeepsCore(w, i, io);
    DeliverInParts(w, i, io, now);
    NotedKeeps(w.link, w.outbox[i]);
    var w1 := Settled(w, i, io);
    assert |w1.link.queue| == |w.link.queue| && w1.link.sendState == w.link.sendState;
    assert HandshakeInv(w1) && FlowInv(w1);
    hide Settled, Deliver, Inv, Core, HandshakeInv, FlowInv;
    if Fires(w1.link) {
      FiredFuel(w1, io);
    }
  }

  lemma FiredFuel(w: World, io: Samples)
    requires FlowInv(w) && HandshakeInv(w) && Fires(w.link)
    ensures Fuel(Closed(Issued(w, io))) <= Fuel(w)
  {
    hide Issued, FlowInv, CommandPackets, CommandStore, GoodPhase, Holds;
    IssueFlow(w, io);
    IssueWaits(w, io);
    CommandBatch(w.store, io, w.link.canEnable, w.link.deviceReset, TargetOf(w.link));
  }

  lemma {:induction false} PicksBurnFuel(w: World, picks: seq<Pick>)
    requires Inv(w) && AllDeliverable(w, picks)
    ensures Fuel(DeliverAll(w, picks)) + QueuedAnswers(picks) <= Fuel(w)
    decreases |picks|
  {
    hide Inv, Fuel, CanDeliver, DeliverOne;
    if picks != [] {
      AnswerBurnsFuel(w, picks[0]);
      PicksBurnFuel(DeliverOne(w, picks[0]), picks[1..]);
    }
  }

  lemma FlushKeepsFuel(w: World)
    requires FlowInv(w)
    ensures Fuel(Flushed(w)) == Fuel(w)
  {
    hide FlowInv, Flushed, Flush;
    FlushedFlow(w);
    FlushedFields(w);
  }

  lemma ProcessKeepsFuel(w: World, applied: bool, answer: Option<Event>)
    requires Inv(w) && CanProcess(w, applied, answer)
    ensures Fuel(Next(w, Process(applied, answer))) == Fuel(w)
  {
    hide Inv;
  }

  // ---- The rest of a transaction ----

  /** A step inside one transaction: anything but a tick that starts the next one, or a new device. */
  ghost predicate Stays(w: World, s: Step)
    requires Inv(w) && Enabled(w, s)
  {
    match s
    case Timer(_, _, time) => !Starts(w.link, time, w.lastLoop)
    case Reconnect(_, _, _, _) => false
    case _ => true
  }

  /** A run inside one transaction, missed loops and power cycles included. */
  ghost predicate AllStay(w: World, steps: seq<Step>)
    requires Inv(w) && AllEnabled(w, steps)
    decreases |steps|
  {
    steps != [] ==> Stays(w, steps[0]) && AllStay(Next(w, steps[0]), steps[1..])
  }

  /** A missed loop or a handshake step. */
  lemma QuietTickFields(w: World, io: Samples, canEnable: bool, time: uint64)
    requires Inv(w) && !Starts(w.link, time, w.lastLoop)
    ensures var z := Tick(w, io, canEnable, time);
            && z == w.(link := z.link, store := z.store, asked := z.asked)
            && z.link == w.link.(discoverStart := z.link.discoverStart)
  {
    hide RestInv, PhaseInv, LogInv, CacheInv, EncoderInv, SampleInv, StatusInv, Interval, Unwritten, WindowFlow;
    QuietUpdate(w.link, w.store, io, canEnable, time, w.lastLoop);
    AbsorbQuietly(w, OnUpdate(w.link, w.store, io, canEnable, time, w.lastLoop).outcome, io);
    hide OnUpdate, FlowInv, HandshakeInv, Absorb;
  }

  lemma TickKeepsFuel(w: World, io: Samples, canEnable: bool, time: uint64)
    requires Inv(w) && !Starts(w.link, time, w.lastLoop)
    ensures Fuel(Tick(w, io, canEnable, time)) == Fuel(w)
  {
    hide Inv, Tick;
    QuietTickFields(w, io, canEnable, time);
  }

  lemma ReadBurnsFuel(w: World, picks: seq<Pick>)
    requires Inv(w) && AllDeliverable(w, picks)
    ensures Fuel(Flushed(DeliverAll(w, picks))) + QueuedAnswers(picks) <= Fuel(w)
  {
    hide DeliverAll, Flushed, FlowInv, HandshakeInv, PhaseInv, StatusInv, RestInv, LogInv, CacheInv, EncoderInv,
         SampleInv, Fuel;
    PicksBurnFuel(w, picks);
    FlushKeepsFuel(DeliverAll(w, picks));
  }

  lemma StepBurnsFuel(w: World, s: Step)
    requires Inv(w) && Enabled(w, s) && Stays(w, s)
    ensures Fuel(Next(w, s)) + Answers([s]) <= Fuel(w)
  {
    hide Core, RestInv, Tick, DeliverAll, Flushed, ProcessLive, ProcessDead, Starts;
    assert [s][1..] == [];
    match s
    case Timer(io, canEnable, time) => TickKeepsFuel(w, io, canEnable, time);
    case Read(picks) => ReadBurnsFuel(w, picks);
    case Process(applied, answer) => ProcessKeepsFuel(w, applied, answer);
    case PowerCycle(_) =>
  }

  lemma {:induction false} AnswersBurnFuel(w: World, steps: seq<Step>)
    requires Inv(w) && AllEnabled(w, steps) && AllStay(w, steps)
    ensures Fuel(Run(w, steps)) + Answers(steps) <= Fuel(w)
    decreases |steps|
  {
    hide Inv, Fuel, Enabled, Next, Stays;
    if steps != [] {
      assert [steps[0]][1..] == [];
      StepBurnsFuel(w, steps[0]);
      AnswersBurnFuel(Next(w, steps[0]), steps[1..]);
    }
  }

  /**
   * Answers end the transaction, through missed loops and power cycles: each answer burns fuel, whatever it is and in
   * whatever order the answers come, and the daemon is ready to send again if and only if no written frame is left
   * unanswered.
   */
  lemma TransactionTerminates(w: World, steps: seq<Step>)
    requires Inv(w) && AtRest(w) && AllEnabled(w, steps) && AllStay(w, steps)
    ensures Fuel(Run(w, steps)) + Answers(steps) <= Fuel(w)
    ensures Run(w, steps).link.sendState == ReadyToSend <==> Run(w, steps).open == {}
  {
    hide Run, Inv, Answers, AtRest, AllStay;
    AnswersBurnFuel(w, steps);
    NoStall(w, steps);
  }

  // ---- When it is given up ----

  lemma {:induction false} StayKeepsLoop(w: World, steps: seq<Step>)
    requires Inv(w) && AllEnabled(w, steps) && AllStay(w, steps)
    ensures Run(w, steps).lastLoop == w.lastLoop && (w.link.ftdiDone ==> Run(w, steps).link.ftdiDone)
    decreases |steps|
  {
    hide Inv, Enabled, Next, Stays;
    if steps != [] {
      StepKeepsLoop(w, steps[0]);
      StayKeepsLoop(Next(w, steps[0]), steps[1..]);
    }
  }

  lemma StepKeepsLoop(w: World, s: Step)
    requires Inv(w) && Enabled(w, s) && Stays(w, s)
    ensures Next(w, s).lastLoop == w.lastLoop && (w.link.ftdiDone ==> Next(w, s).link.ftdiDone)
  {
    hide Core, RestInv, Tick, DeliverAll, Flushed, Flush, Starts, DeliverOne;
    match s
    case Timer(io, canEnable, time) => QuietTickFields(w, io, canEnable, time);
    case Read(picks) =>
      PicksKeepLoop(w, picks);
      FlushedFields(DeliverAll(w, picks));
    case Process(_, _) =>
    case PowerCycle(_) =>
  }

  lemma {:induction false} PicksKeepLoop(w: World, picks: seq<Pick>)
    requires Inv(w) && AllDeliverable(w, picks)
    ensures DeliverAll(w, picks).lastLoop == w.lastLoop && (w.link.ftdiDone ==> DeliverAll(w, picks).link.ftdiDone)
    decreases |picks|
  {
    hide Inv, CanDeliver, DeliverOne;
    if picks != [] {
      OneKeepsHandshake(w, picks[0]);
      PickKeepsLoop(w, picks[0]);
      PicksKeepLoop(DeliverOne(w, picks[0]), picks[1..]);
    }
  }

  lemma PickKeepsLoop(w: World, pick: Pick)
    requires Inv(w) && CanDeliver(w, pick)
    ensures DeliverOne(w, pick).lastLoop == w.lastLoop
  {
    hide Handle, Core, RestInv;
    DeliverKeepsInv(w, pick);
  }

  /**
   * A transaction that does not end is given up by the first tick a second or more after the one that started it, and
   * by none before; one that has ended is followed by the next at any tick.
   */
  lemma GivenUpAfterASecond(w: World, io: Samples, canEnable: bool, start: uint64, steps: seq<Step>,
                            sampled: Samples, allowed: bool, time: uint64)
    requires Inv(w) && OnUpdate(w.link, w.store, io, canEnable, start, w.lastLoop).started
    requires var v := Next(w, Timer(io, canEnable, start)); AllEnabled(v, steps) && AllStay(v, steps)
    ensures var z := Run(Next(w, Timer(io, canEnable, start)), steps);
            OnUpdate(z.link, z.store, sampled, allowed, time, z.lastLoop).started <==>
            z.link.sendState == ReadyToSend || Elapsed(time, start) >= 1_000_000
  {
    hide Core, RestInv, Run, AllStay, AllEnabled, SendInitial, StartTransaction, Synchronize, Tick;
    StartSetsLoop(w, io, canEnable, start);
    StayKeepsLoop(Next(w, Timer(io, canEnable, start)), steps);
    UpdateNeeds(Run(Next(w, Timer(io, canEnable, start)), steps));
  }

  lemma UpdateNeeds(w: World)
    requires Inv(w)
    ensures Ordered(w.link) && TickSafe(w.link) && (w.link.sendState == ReadyToSend ==> w.link.queue == [])
  {
    hide WindowFlow, Unwritten, PhaseInv, StatusInv, LogInv, CacheInv, EncoderInv, SampleInv, RestInv;
  }

  lemma StartSetsLoop(w: World, io: Samples, canEnable: bool, time: uint64)
    requires Inv(w) && OnUpdate(w.link, w.store, io, canEnable, time, w.lastLoop).started
    ensures var z := Next(w, Timer(io, canEnable, time)); z.lastLoop == time && z.link.ftdiDone
  {
    hide PhaseInv, StatusInv, RestInv, LogInv, CacheInv, EncoderInv, SampleInv, Interval;
    TickOpens(w, io, canEnable, time);
    OpenedLink(w.link, w.store, io, canEnable);
    hide OnUpdate, Tick, Flush, Opening, InitialPackets, InitialStore;
  }

  // ---- A hub that answers every frame ----

  /** No answer is lost: every open frame's is under way or still to be given. */
  predicate NoneLost(w: World) {
    forall i :: i in w.open ==> i in w.outbox || w.processed <= i
  }

  /** A frame of this transaction that is worked off is answered. */
  predicate Answering(w: World, s: Step) {
    s.Process? && w.dead == [] ==> s.answer.Some?
  }

  ghost predicate AllAnswering(w: World, steps: seq<Step>)
    requires Inv(w) && AllEnabled(w, steps)
    decreases |steps|
  {
    steps != [] ==> Answering(w, steps[0]) && AllAnswering(Next(w, steps[0]), steps[1..])
  }

  /** How much the step does for the end of the transaction: frames worked off, and answers taken. */
  function Progress(s: Step): nat {
    match s
    case Process(_, _) => 1
    case Read(picks) => QueuedAnswers(picks)
    case _ => 0
  }

  function Progresses(steps: seq<Step>): nat {
    if steps == [] then 0 else Progress(steps[0]) + Progresses(steps[1..])
  }

  /** What is left to do: answers to take and frames to work off, now and with a batch to come. */
  function Work(w: World): int {
    Fuel(w) + |w.dead| + |w.log| - w.processed + (if w.link.sendState == WaitingForPackets then 28 else 0)
  }

  lemma WorkIsLeft(w: World)
    requires Inv(w)
    ensures Fuel(w) <= Work(w)
  {
    hide Fuel, HandshakeInv, PhaseInv, StatusInv, LogInv, CacheInv, EncoderInv, SampleInv, RestInv;
  }

  /** What taking in a queued answer does to the wire. */
  lemma AnswerOnWire(w: World, i: nat, io: Samples, now: uint64)
    requires Inv(w) && i in w.outbox && i < |w.log| && Ordered(w.link) && Readable(w.link, w.outbox[i])
    ensures var z := Deliver(w, Queued(i, io, now));
            && z.outbox == w.outbox - {i} && z.processed == w.processed && z.dead == w.dead
            && (forall k :: k in z.open ==> (k in w.open && k != i) || w.written <= k)
            && w.processed <= w.written && |w.log| <= |z.log|
            && |z.log| + (if z.link.sendState == WaitingForPackets then 28 else 0)
               <= |w.log| + if w.link.sendState == WaitingForPackets then 28 else 0
  {
    hide FlowInv, PhaseInv, HandshakeInv, StatusInv, LogInv, CacheInv, EncoderInv, SampleInv, RestInv, Settled, Deliver,
         Noted, Issued, Readable;
    SettleKeepsCore(w, i, io);
    DeliverInParts(w, i, io, now);
    SettledOnWire(w, i, io);
    InBounds(w);
    var w1 := Settled(w, i, io);
    if Fires(w1.link) {
      FiredOnWire(w1, io);
    }
  }

  lemma SettledOnWire(w: World, i: nat, io: Samples)
    requires i in w.outbox && i < |w.log| && Readable(w.link, w.outbox[i])
    ensures var z := Settled(w, i, io);
            && z.log == w.log && z.open == w.open - {i} && z.outbox == w.outbox - {i} && z.written == w.written
            && z.dead == w.dead && z.processed == w.processed && z.link.sendState == w.link.sendState
  {
    hide Noted, Recorded, Readable;
    NotedKeeps(w.link, w.outbox[i]);
  }

  lemma FiredOnWire(w: World, io: Samples)
    requires HandshakeInv(w) && Fires(w.link)
    ensures var z := Closed(Issued(w, io));
            && z.outbox == w.outbox && z.processed == w.processed && z.dead == w.dead
            && (forall k :: k in z.open ==> k in w.open || w.written <= k)
            && |w.log| <= |z.log| <= |w.log| + 28 && z.link.sendState != WaitingForPackets
  {
    hide Issued, CommandPackets, CommandStore, Flush;
    IssuedFields(w, io);
    CommandSize(w.store, io, w.link.canEnable, w.link.deviceReset, TargetOf(w.link));
  }

  lemma AnswerLeavesLess(w: World, pick: Pick)
    requires Inv(w) && CanDeliver(w, pick) && NoneLost(w)
    ensures NoneLost(DeliverOne(w, pick))
    ensures Work(DeliverOne(w, pick)) + (if pick.Queued? then 1 else 0) <= Work(w)
  {
    hide Handle, Core, RestInv, NoneLost, Work;
    DeliverKeepsInv(w, pick);
    match pick
    case Queued(i, io, now) => QueuedLeavesLess(w, i, io, now);
    case Handshake(number, e, io, now) => GreetingLeavesLess(w, pick);
  }

  lemma QueuedLeavesLess(w: World, i: nat, io: Samples, now: uint64)
    requires Inv(w) && CanDeliver(w, Queued(i, io, now)) && NoneLost(w)
    requires Ordered(w.link) && Readable(w.link, w.outbox[i])
    ensures var z := Deliver(w, Queued(i, io, now)); NoneLost(z) && Work(z) + 1 <= Work(w)
  {
    hide Deliver, Core, RestInv, Fuel, Readable;
    QueuedBurnsFuel(w, i, io, now);
    AnswerOnWire(w, i, io, now);
  }

  lemma GreetingLeavesLess(w: World, pick: Pick)
    requires Inv(w) && CanDeliver(w, pick) && pick.Handshake? && NoneLost(w)
    ensures NoneLost(DeliverOne(w, pick)) && Work(DeliverOne(w, pick)) == Work(w)
  {
    hide DeliverOne, Core, RestInv, HandshakeFits;
    GreetingOnWire(w, pick);
  }

  lemma GreetingOnWire(w: World, pick: Pick)
    requires Inv(w) && CanDeliver(w, pick) && pick.Handshake?
    ensures var z := DeliverOne(w, pick);
            && z == w.(link := z.link, store := z.store, asked := z.asked)
            && SameTransaction(w.link, z.link)
  {
    DeliverKeepsInv(w, pick);
    HandshakeReplyIsInOrder(w, pick.number, pick.event);
    GreetIsQuiet(w.link, pick.event, pick.now);
    hide Greet, Inv;
    AbsorbQuietly(w, Handle(w.link, w.store, pick.event, pick.io, pick.now), pick.io);
    hide Absorb;
  }

  lemma {:induction false} PicksLeaveLess(w: World, picks: seq<Pick>)
    requires Inv(w) && AllDeliverable(w, picks) && NoneLost(w)
    ensures NoneLost(DeliverAll(w, picks))
    ensures Work(DeliverAll(w, picks)) + QueuedAnswers(picks) <= Work(w)
    decreases |picks|
  {
    hide Inv, Work, CanDeliver, DeliverOne, NoneLost;
    if picks != [] {
      AnswerLeavesLess(w, picks[0]);
      PicksLeaveLess(DeliverOne(w, picks[0]), picks[1..]);
    }
  }

  lemma FlushLeavesNoMore(w: World)
    requires Inv(w) && NoneLost(w)
    ensures NoneLost(Flushed(w)) && Work(Flushed(w)) == Work(w)
  {
    hide Fuel, Flushed, Flush, HandshakeInv, PhaseInv, StatusInv, LogInv, CacheInv, EncoderInv, SampleInv, RestInv;
    FlushedFields(w);
    FlushKeepsFuel(w);
    assert w.processed <= w.written;
  }

  lemma ProcessLeavesLess(w: World, applied: bool, answer: Option<Event>)
    requires Inv(w) && CanProcess(w, applied, answer) && NoneLost(w) && (w.dead == [] ==> answer.Some?)
    ensures var z := Next(w, Process(applied, answer)); NoneLost(z) && Work(z) + 1 == Work(w)
  {
    hide Fuel, Inv, ActionOf, StatusFits, Fits;
    ProcessKeepsFuel(w, applied, answer);
  }

  lemma TickKeepsWork(w: World, io: Samples, canEnable: bool, time: uint64)
    requires Inv(w) && !Starts(w.link, time, w.lastLoop) && NoneLost(w)
    ensures var z := Tick(w, io, canEnable, time); NoneLost(z) && Work(z) == Work(w)
  {
    hide Inv, Tick;
    QuietTickFields(w, io, canEnable, time);
  }

  lemma ReadLeavesLess(w: World, picks: seq<Pick>)
    requires Inv(w) && AllDeliverable(w, picks) && NoneLost(w)
    ensures var z := Flushed(DeliverAll(w, picks)); NoneLost(z) && Work(z) + QueuedAnswers(picks) <= Work(w)
  {
    hide Inv, DeliverAll, Flushed, Work, NoneLost;
    PicksLeaveLess(w, picks);
    FlushLeavesNoMore(DeliverAll(w, picks));
  }

  lemma StepLeavesLess(w: World, s: Step)
    requires Inv(w) && Enabled(w, s) && Stays(w, s) && Answering(w, s) && NoneLost(w)
    ensures NoneLost(Next(w, s)) && Work(Next(w, s)) + Progress(s) <= Work(w)
  {
    hide Core, RestInv, Tick, DeliverAll, Flushed, ProcessLive, ProcessDead, Starts;
    match s
    case Timer(io, canEnable, time) => TickKeepsWork(w, io, canEnable, time);
    case Read(picks) => ReadLeavesLess(w, picks);
    case Process(applied, answer) => ProcessLeavesLess(w, applied, answer);
    case PowerCycle(_) =>
  }

  lemma {:induction false} RunLeavesLess(w: World, steps: seq<Step>)
    requires Inv(w) && AllEnabled(w, steps) && AllStay(w, steps) && AllAnswering(w, steps) && NoneLost(w)
    ensures NoneLost(Run(w, steps)) && Work(Run(w, steps)) + Progresses(steps) <= Work(w)
    decreases |steps|
  {
    hide Inv, Work, Enabled, Next, NoneLost, Stays, Answering, Progress;
    if steps != [] {
      StepLeavesLess(w, steps[0]);
      RunLeavesLess(Next(w, steps[0]), steps[1..]);
    }
  }

  /** A step that brings the end nearer. */
  ghost predicate Advances(w: World, s: Step)
    requires Inv(w)
  {
    Enabled(w, s) && Stays(w, s) && Answering(w, s) && Progress(s) > 0
  }

  /** Some open frame's answer is under way or still to be given. */
  predicate Answerable(w: World) {
    exists i :: i in w.open && (i in w.outbox || w.processed <= i)
  }

  /**
   * While the daemon is not ready, a step advances it if and only if some open frame can still be answered: the hub
   * has a frame to work off, or the daemon an answer to take.
   */
  lemma SomethingToDo(w: World)
    requires Inv(w) && AtRest(w) && w.link.sendState != ReadyToSend
    ensures (exists s :: Advances(w, s)) <==> Answerable(w)
    ensures NoneLost(w) ==> Answerable(w)
  {
    hide HandshakeInv, PhaseInv, StatusInv, LogInv, CacheInv, EncoderInv, SampleInv, AtRest, Advances;
    RestingWaits(w);
    var k :| k in w.open;
    if i :| i in w.open && (i in w.outbox || w.processed <= i) {
      assert i in Interval(0, w.written);
      if i in w.outbox {
        ReadAdvances(w, i);
      } else {
        ProcessAdvances(w);
      }
    }
    if s :| Advances(w, s) {
      AdvancesAnswers(w, s);
    }
  }

  lemma AdvancesAnswers(w: World, s: Step)
    requires Inv(w) && w.open != {} && Advances(w, s)
    ensures Answerable(w)
  {
    match s
    case Process(_, _) => NextIsOpen(w);
    case Read(picks) =>
      hide Inv, CanDeliver, DeliverOne;
      SomeAnswerTaken(w, picks);
  }

  lemma NextIsOpen(w: World)
    requires Inv(w) && w.open != {} && (w.dead != [] || w.processed < w.written)
    ensures Answerable(w)
  {
    hide HandshakeInv, PhaseInv, StatusInv, LogInv, EncoderInv, SampleInv, RestInv, Unwritten;
    var k :| k in w.open;
    assert k in Interval(0, w.written);
    assert w.processed in Interval(w.processed, w.written);
  }

  lemma {:induction false} SomeAnswerTaken(w: World, picks: seq<Pick>)
    requires Inv(w) && AllDeliverable(w, picks) && QueuedAnswers(picks) > 0
    ensures Answerable(w)
    decreases |picks|
  {
    hide Core, RestInv, HandshakeFits, DeliverOne;
    match picks[0]
    case Queued(i, _, _) => AnswerIsOpen(w, i);
    case Handshake(_, _, _, _) =>
      GreetingOnWire(w, picks[0]);
      SomeAnswerTaken(DeliverOne(w, picks[0]), picks[1..]);
  }

  lemma AnswerIsOpen(w: World, i: nat)
    requires Inv(w) && i in w.outbox
    ensures Answerable(w)
  {
    hide HandshakeInv, PhaseInv, StatusInv, LogInv, CacheInv, EncoderInv, SampleInv, RestInv, Unwritten, Interval;
  }

  lemma ReadAdvances(w: World, i: nat)
    requires Inv(w) && i in w.outbox && i < |w.log|
    ensures Advances(w, Read([Queued(i, w.sampled, 0)]))
  {
    hide Inv;
    var picks := [Queued(i, w.sampled, 0)];
    assert picks[1..] == [] && AllDeliverable(DeliverOne(w, picks[0]), []);
    assert QueuedAnswers(picks) == 1 + QueuedAnswers([]);
  }

  lemma ProcessAdvances(w: World)
    requires Inv(w) && w.processed < w.written <= |w.log|
    ensures Advances(w, Process(true, if w.dead == [] then Some(Corrupt) else None))
  {
    hide Inv, ActionOf;
  }

  /**
   * A hub that answers every frame ends the transaction, whatever it answers: as long as the daemon is not ready there
   * is a step that advances it, every such step leaves less to do, and after as much progress as there was work the
   * daemon is ready to send.
   */
  lemma AnsweringHubEndsTransaction(w: World, steps: seq<Step>)
    requires Inv(w) && AtRest(w) && NoneLost(w)
    requires AllEnabled(w, steps) && AllStay(w, steps) && AllAnswering(w, steps)
    ensures var z := Run(w, steps);
            && 0 <= Work(z) <= Work(w) - Progresses(steps)
            && (Progresses(steps) >= Work(w) ==> z.link.sendState == ReadyToSend)
            && (z.link.sendState != ReadyToSend ==> exists s :: Advances(z, s))
  {
    hide Inv, AtRest, Run, Work, NoneLost, Advances, Progresses, AllStay, AllAnswering;
    RunLeavesLess(w, steps);
    RunEndsAtRest(w, steps);
    var z := Run(w, steps);
    WorkIsLeft(z);
    NoStall(w, steps);
    NoFuelIsReady(z);
    if z.link.sendState != ReadyToSend {
      SomethingToDo(z);
    }
  }

  // ---- When a transaction can end ----

  /** The run stays inside the transaction and ends it. */
  ghost predicate EndsTransaction(w: World, steps: seq<Step>)
    requires Inv(w)
  {
    AllEnabled(w, steps) && AllStay(w, steps) && Run(w, steps).link.sendState == ReadyToSend
  }

  /** A frame that was worked off without an answer. */
  predicate LostAnswer(w: World, i: nat) {
    i in w.open && i !in w.outbox && i < w.processed
  }

  lemma AnswerLeavesLost(w: World, k: nat, io: Samples, now: uint64, i: nat)
    requires Inv(w) && CanDeliver(w, Queued(k, io, now)) && LostAnswer(w, i)
    requires Ordered(w.link) && Readable(w.link, w.outbox[k])
    ensures LostAnswer(Deliver(w, Queued(k, io, now)), i)
  {
    hide FlowInv, PhaseInv, HandshakeInv, StatusInv, LogInv, CacheInv, EncoderInv, SampleInv, RestInv, Settled, Deliver,
         Issued, CommandPackets, Flush, Readable;
    SettleKeepsCore(w, k, io);
    DeliverInParts(w, k, io, now);
    SettledOnWire(w, k, io);
    var w1 := Settled(w, k, io);
    if Fires(w1.link) {
      IssuedFields(w1, io);
    }
  }

  lemma PickLeavesLost(w: World, pick: Pick, i: nat)
    requires Inv(w) && CanDeliver(w, pick) && LostAnswer(w, i)
    ensures LostAnswer(DeliverOne(w, pick), i)
  {
    hide Handle, Core, RestInv, LostAnswer;
    DeliverKeepsInv(w, pick);
    match pick
    case Queued(k, io, now) => AnswerLeavesLost(w, k, io, now, i);
    case Handshake(_, _, _, _) => GreetingLeavesLost(w, pick, i);
  }

  lemma GreetingLeavesLost(w: World, pick: Pick, i: nat)
    requires Inv(w) && CanDeliver(w, pick) && pick.Handshake? && LostAnswer(w, i)
    ensures LostAnswer(DeliverOne(w, pick), i)
  {
    hide DeliverOne, Core, RestInv, HandshakeFits;
    GreetingOnWire(w, pick);
  }

  lemma {:induction false} PicksLeaveLost(w: World, picks: seq<Pick>, i: nat)
    requires Inv(w) && AllDeliverable(w, picks) && LostAnswer(w, i)
    ensures LostAnswer(DeliverAll(w, picks), i)
    decreases |picks|
  {
    hide Inv, LostAnswer, DeliverOne, CanDeliver;
    if picks != [] {
      PickLeavesLost(w, picks[0], i);
      PicksLeaveLost(DeliverOne(w, picks[0]), picks[1..], i);
    }
  }

  lemma FlushLeavesLost(w: World, i: nat)
    requires LostAnswer(w, i)
    ensures LostAnswer(Flushed(w), i)
  {
    hide Flushed, Flush;
    FlushedFields(w);
  }

  lemma TickLeavesLost(w: World, io: Samples, canEnable: bool, time: uint64, i: nat)
    requires Inv(w) && !Starts(w.link, time, w.lastLoop) && LostAnswer(w, i)
    ensures LostAnswer(Tick(w, io, canEnable, time), i)
  {
    hide Inv, Tick;
    QuietTickFields(w, io, canEnable, time);
  }

  lemma ProcessLeavesLost(w: World, applied: bool, answer: Option<Event>, i: nat)
    requires Inv(w) && CanProcess(w, applied, answer) && LostAnswer(w, i)
    ensures LostAnswer(Next(w, Process(applied, answer)), i)
  {
    hide Inv, ActionOf, StatusFits, Fits;
  }

  lemma StepLeavesLost(w: World, s: Step, i: nat)
    requires Inv(w) && Enabled(w, s) && Stays(w, s) && LostAnswer(w, i)
    ensures LostAnswer(Next(w, s), i)
  {
    hide Core, RestInv, Tick, DeliverAll, Flushed, ProcessLive, ProcessDead, Starts;
    match s
    case Timer(io, canEnable, time) => TickLeavesLost(w, io, canEnable, time, i);
    case Read(picks) =>
      PicksLeaveLost(w, picks, i);
      FlushLeavesLost(DeliverAll(w, picks), i);
    case Process(applied, answer) => ProcessLeavesLost(w, applied, answer, i);
    case PowerCycle(_) =>
  }

  lemma {:induction false} LostAnswerBlocks(w: World, steps: seq<Step>, i: nat)
    requires Inv(w) && AllEnabled(w, steps) && AllStay(w, steps) && LostAnswer(w, i)
    ensures Run(w, steps).link.sendState != ReadyToSend
    decreases |steps|
  {
    hide Enabled, Next, Stays, HandshakeInv, PhaseInv, StatusInv, LogInv, CacheInv, EncoderInv, SampleInv, RestInv,
         WindowFlow, Unwritten;
    if steps != [] {
      StepLeavesLost(w, steps[0], i);
      LostAnswerBlocks(Next(w, steps[0]), steps[1..], i);
    }
  }

  /** With no answer lost, one advancing step after the other ends the transaction. */
  lemma {:induction false} FinishingRun(w: World) returns (steps: seq<Step>)
    requires Inv(w) && AtRest(w) && NoneLost(w)
    ensures EndsTransaction(w, steps)
    decreases Work(w)
  {
    hide Inv, AtRest, NoneLost, Work, Enabled, Next, Stays, Answering, Progress;
    if w.link.sendState == ReadyToSend {
      steps := [];
    } else {
      SomethingToDo(w);
      var s :| Advances(w, s);
      StepLeavesLess(w, s);
      StepEndsAtRest(w, s);
      WorkIsLeft(w);
      var rest := FinishingRun(Next(w, s));
      steps := [s] + rest;
      assert steps[1..] == rest;
    }
  }

  /**
   * When a transaction can still end without a recovery: if and only if no answer is lost. One frame worked off without
   * an answer blocks it for good, whatever else is answered.
   */
  lemma TransactionCanEndIff(w: World)
    requires Inv(w) && AtRest(w)
    ensures (exists steps :: EndsTransaction(w, steps)) <==> NoneLost(w)
  {
    hide Inv, AtRest, EndsTransaction;
    if NoneLost(w) {
      var steps := FinishingRun(w);
    } else {
      var i: nat :| i in w.open && !(i in w.outbox || w.processed <= i);
      forall steps ensures !EndsTransaction(w, steps) { BlockedRun(w, steps, i); }
    }
  }

  lemma BlockedRun(w: World, steps: seq<Step>, i: nat)
    requires Inv(w) && LostAnswer(w, i)
    ensures !EndsTransaction(w, steps)
  {
    hide Inv, LostAnswer, Run, AllStay;
    if AllEnabled(w, steps) && AllStay(w, steps) {
      LostAnswerBlocks(w, steps, i);
    }
  }

  lemma NoFuelIsReady(w: World)
    requires Inv(w) && (w.link.sendState != ReadyToSend <==> w.open != {})
    ensures Fuel(w) <= 0 ==> w.link.sendState == ReadyToSend
  {
    hide Inv;
  }

  /** A transaction starts with every answer still to come: at most forty-two of them, for as many frames. */
  lemma TransactionStarts(w: World, io: Samples, canEnable: bool, time: uint64)
    requires Inv(w) && OnUpdate(w.link, w.store, io, canEnable, time, w.lastLoop).started
    ensures var z := Next(w, Timer(io, canEnable, time));
            && AtRest(z) && NoneLost(z) && Fuel(z) <= 42 && Work(z) <= 84 + |z.dead|
  {
    hide Opened, FlowInv, RestInv, PhaseInv, StatusInv, LogInv, CacheInv, EncoderInv, SampleInv, AtRest, NoneLost, Fuel,
         Work, OnUpdate;
    TickOpens(w, io, canEnable, time);
    InBounds(w);
    OpenedMeasures(w, io, canEnable, time);
  }

  lemma OpenedMeasures(w: World, io: Samples, canEnable: bool, now: uint64)
    requires FlowInv(w) && w.link.address.Some? && w.link.interfaceId.Some? && UsableInterface(w.hub.interfaceId)
    ensures w.processed <= w.written <= |w.log|
    ensures var z := Opened(w, io, canEnable, now);
            AtRest(z) && NoneLost(z) && Fuel(z) <= 42 && Work(z) <= 84 + |z.dead|
  {
    hide Opened, FlowInv, RestInv;
    InBounds(w);
    OpenedFlow(w, io, canEnable, now);
    OpenedWork(w, io, canEnable, now);
  }

  lemma OpenedWork(w: World, io: Samples, canEnable: bool, now: uint64)
    requires w.processed <= w.written <= |w.log| && w.link.address.Some? && w.link.interfaceId.Some?
    ensures var z := Opened(w, io, canEnable, now); NoneLost(z) && z.processed == 0 && |z.log| <= 14
  {
    hide Flush, Opening, InitialPackets, InitialStore;
    OpeningSize(w.store, io, TargetOf(w.link));
  }
}
