/** What tells the daemon of a power cycle, which steps lose it, and that what is lost stays lost. */
module Evidence {
  import opened Batches
  import opened Bytes
  import opened Caches
  import opened Guarantees
  import opened Messages
  import opened Protocol
  import opened Replies
  import opened Steps
  import opened Stores
  import opened Transactions
  import opened World
  import opened Wrappers

  // ---- What is evidence ----

  /** A status reply under way that reports a power cycle. */
  predicate Reported(w: World, i: nat) {
    && i in w.outbox && i < |w.log|
    && w.outbox[i].Reply? && w.outbox[i].reference == MESSAGE_MODULE_STATUS
    && |w.outbox[i].payload| >= 1 && w.outbox[i].payload[0] != 0
  }

  /** The transaction's own status reply brought the flag, or is bringing it. */
  ghost predicate Told(w: World) {
    (w.link.haveStatus && w.link.deviceReset) || exists i :: Reported(w, i)
  }

  /** Frame i can still be answered by a reply: the hub has not worked it off, or its reply is under way. */
  predicate Pending(w: World, i: nat) {
    w.processed <= i || (i in w.outbox && w.outbox[i].Reply?)
  }

  ghost predicate Coming(w: World, number: int) {
    exists i: nat :: i < |w.log| && w.log[i].number == number && Pending(w, i)
  }

  /** The transaction has not issued its batch and can still get the battery and bulk replies it needs. */
  ghost predicate Promising(w: World) {
    && w.link.sendState == WaitingForPackets
    && (w.link.haveBattery || Coming(w, MESSAGE_BATTERY_VOLTAGE))
    && (w.link.haveBulk || Coming(w, MESSAGE_BULK_INPUT))
  }

  /** The hub has its flag up, or the flag is on its way into a batch of this transaction. */
  ghost predicate Evident(w: World) {
    w.device.raised || (Promising(w) && Told(w))
  }

  // ---- The steps that lose it ----

  predicate IsReply(answer: Option<Event>) {
    answer.Some? && answer.value.Reply?
  }

  /** The next frame the hub works off asks for the status. */
  predicate ReadsStatus(w: World)
    requires w.dead != [] || w.processed < |w.log|
  {
    ActionOf(w, if w.dead != [] then w.dead[0] else w.log[w.processed]) == ReadStatus(true)
  }

  /** The next frame is a battery or bulk request whose reply the batch still needs. */
  predicate IsNeeded(w: World)
    requires w.dead != [] || w.processed < |w.log|
  {
    && w.dead == []
    && var n := w.log[w.processed].number;
       (n == MESSAGE_BATTERY_VOLTAGE && !w.link.haveBattery) || (n == MESSAGE_BULK_INPUT && !w.link.haveBulk)
  }

  /**
   * Working off a frame loses the power cycle when it reads the hub's flag and no reply takes the flag into a batch
   * that can still come, or when the flag is down and a request the batch needs gets no reply.
   */
  ghost predicate ProcessLoses(w: World, applied: bool, answer: Option<Event>)
    requires w.dead != [] || w.processed < |w.log|
  {
    if w.device.raised then applied && ReadsStatus(w) && !(Promising(w) && (Told(w) || IsReply(answer)))
    else IsNeeded(w) && !IsReply(answer)
  }

  /** The losing steps: such a frame, and a tick that starts a transaction with the hub's flag down. Reads never lose. */
  ghost predicate Loses(w: World, s: Step)
    requires Inv(w) && Enabled(w, s)
  {
    && w.unacted && Evident(w)
    && match s
       case Timer(_, _, time) => Starts(w.link, time, w.lastLoop) && !w.device.raised
       case Process(applied, answer) =>
         (w.dead != [] || w.processed < |w.log|) && ProcessLoses(w, applied, answer)
       case _ => false
  }

  /** A power cycle no batch has acted on, and nothing left to tell of it. */
  ghost predicate Lost(w: World) {
    w.unacted && !Evident(w)
  }

  // ---- Status replies ----

  /** One frame of a transaction at most is answered by a status reply. */
  lemma ReportsAreOne(w: World, i: nat, j: nat)
    requires Core(w) && i in w.outbox && j in w.outbox && i != j
    requires w.outbox[i].Reply? && w.outbox[i].reference == MESSAGE_MODULE_STATUS
    ensures !(w.outbox[j].Reply? && w.outbox[j].reference == MESSAGE_MODULE_STATUS)
  {
    hide FlowInv, HandshakeInv, PhaseInv, StatusInv, CacheInv, EncoderInv, SampleInv, Understood;
    AnswerShape(w, i);
    AnswerShape(w, j);
  }

  /** With the status reply in, none is under way. */
  lemma StatusIsIn(w: World, i: nat)
    requires Core(w) && i in w.outbox && w.link.haveStatus
    ensures !(w.outbox[i].Reply? && w.outbox[i].reference == MESSAGE_MODULE_STATUS)
  {
    hide FlowInv, HandshakeInv, PhaseInv, CacheInv, EncoderInv, SampleInv, Understood;
    AnswerShape(w, i);
  }

  /** The flag a status reply leaves is the one it was evidence of; any other answer leaves the flag alone. */
  lemma ToldAfter(w: World, z: World, i: nat)
    requires Core(w) && i in w.outbox && i < |w.log| && Readable(w.link, w.outbox[i])
    requires z.outbox == w.outbox - {i} && |w.log| <= |z.log|
    requires var e := w.outbox[i];
             && z.link.haveStatus == (w.link.haveStatus || (e.Reply? && e.reference == MESSAGE_MODULE_STATUS))
             && z.link.deviceReset == (if e.Reply? && e.reference == MESSAGE_MODULE_STATUS then e.payload[0] != 0
                                       else w.link.deviceReset)
    ensures Told(z) <==> Told(w)
    ensures z.link.haveStatus ==> (Told(z) <==> z.link.deviceReset)
  {
    hide FlowInv, HandshakeInv, PhaseInv, LogInv, CacheInv, EncoderInv, SampleInv, StatusInv, RestInv;
    var e := w.outbox[i];
    if e.Reply? && e.reference == MESSAGE_MODULE_STATUS {
      forall j ensures !Reported(z, j) && (Reported(w, j) ==> j == i) {
        if j in w.outbox && j != i { ReportsAreOne(w, i, j); }
      }
      if w.link.haveStatus { StatusIsIn(w, i); }
      assert Reported(w, i) <==> e.payload[0] != 0;
    } else {
      forall j ensures Reported(z, j) <==> Reported(w, j) {
        if Reported(w, j) { AnswerShape(w, j); }
        if Reported(z, j) { AnswerShape(w, j); }
      }
      if w.link.haveStatus {
        forall j | Reported(w, j) ensures false { StatusIsIn(w, j); }
      }
    }
  }

  // ---- Taking in an answer ----

  /** What taking in a queued answer does to the transaction. */
  lemma AnswerEffects(w: World, i: nat, io: Samples, now: uint64)
    requires Inv(w) && i in w.outbox && i < |w.log| && Ordered(w.link) && Readable(w.link, w.outbox[i])
    ensures var z, e := Deliver(w, Queued(i, io, now)), w.outbox[i];
            && z.processed == w.processed
            && z.link.haveBattery == (w.link.haveBattery || (e.Reply? && e.reference == MESSAGE_BATTERY_VOLTAGE))
            && z.link.haveBulk == (w.link.haveBulk || (e.Reply? && e.reference == MESSAGE_BULK_INPUT))
            && z.link.haveStatus == (w.link.haveStatus || (e.Reply? && e.reference == MESSAGE_MODULE_STATUS))
            && (z.batches > w.batches <==> w.link.sendState == WaitingForPackets && HaveAll(z.link))
            && (z.batches > w.batches ==> z.link.sendState != WaitingForPackets)
            && (z.batches == w.batches ==>
                  && z.log == w.log
                  && z.link.sendState == if w.link.queue == [] && w.link.window == 1 then ReadyToSend else w.link.sendState)
  {
    hide FlowInv, PhaseInv, HandshakeInv, StatusInv, LogInv, CacheInv, EncoderInv, SampleInv, RestInv, Settled, Deliver,
         Noted, Issued, CommandPackets, CommandStore, Flush, Readable;
    SettleKeepsCore(w, i, io);
    DeliverInParts(w, i, io, now);
    NotedKeeps(w.link, w.outbox[i]);
    var w1 := Settled(w, i, io);
    SettledFields(w, i, io);
    if Fires(w1.link) {
      IssuedFields(w1, io);
    }
  }

  lemma SettledFields(w: World, i: nat, io: Samples)
    requires i in w.outbox && i < |w.log| && Readable(w.link, w.outbox[i])
    ensures var z := Settled(w, i, io);
            && z.link == Answered(Noted(w.link, w.outbox[i])) && z.log == w.log && z.batches == w.batches
            && z.processed == w.processed
  {
    hide Noted, Readable, Recorded;
  }

  /** A request whose reply comes in was coming. */
  lemma WasComing(w: World, i: nat, number: int)
    requires Core(w) && i in w.outbox && w.outbox[i].Reply? && w.outbox[i].reference as int == number
    ensures Coming(w, number)
  {
    hide FlowInv, HandshakeInv, PhaseInv, LogInv, CacheInv, EncoderInv, SampleInv, StatusInv;
    AnswerShape(w, i);
    assert Pending(w, i);
  }

  /** Of a request's reply, either it is still coming, or it just came in. */
  lemma ComingAfter(w: World, z: World, i: nat, number: int)
    requires Core(w) && i in w.outbox
    requires z.outbox == w.outbox - {i} && z.log == w.log && z.processed == w.processed
    ensures Coming(w, number) <==>
            Coming(z, number) || (w.outbox[i].Reply? && w.outbox[i].reference as int == number)
  {
    hide FlowInv, HandshakeInv, PhaseInv, LogInv, CacheInv, EncoderInv, SampleInv, StatusInv;
    AnswerShape(w, i);
    if k: nat :| k < |w.log| && w.log[k].number as int == number && Pending(w, k) {
      if k != i { assert Pending(z, k); }
    }
    if k: nat :| k < |z.log| && z.log[k].number as int == number && Pending(z, k) {
      assert Pending(w, k);
    }
    if w.outbox[i].Reply? && w.outbox[i].reference as int == number {
      WasComing(w, i, number);
    }
  }

  /** The last answer of a transaction leaves nothing that could still come. */
  lemma LastAnswer(w: World, i: nat, k: nat)
    requires Core(w) && i in w.outbox && w.link.queue == [] && w.link.window == 1
    requires k < |w.log| && Pending(w, k)
    ensures k == i
  {
    hide HandshakeInv, PhaseInv, CacheInv, EncoderInv, SampleInv, StatusInv, LogInv;
    assert w.written == |w.log|;
    assert i in w.open && |w.open| == 1;
    OnlyOne(w.open, i);
    assert Interval(w.processed, w.written) <= w.open;
  }

  lemma OnlyOne(s: set<nat>, i: nat)
    requires |s| == 1 && i in s
    ensures s == {i}
  {
    assert |s - {i}| == 0;
    assert s - {i} == {};
  }

  /** A transaction that ends on this answer without its batch had no promise left. */
  lemma CutBreaksNoPromise(w: World, z: World, i: nat)
    requires Inv(w) && i in w.outbox && w.link.queue == [] && w.link.window == 1
    requires var e := w.outbox[i];
             && z.link.haveBattery == (w.link.haveBattery || (e.Reply? && e.reference == MESSAGE_BATTERY_VOLTAGE))
             && z.link.haveBulk == (w.link.haveBulk || (e.Reply? && e.reference == MESSAGE_BULK_INPUT))
             && z.link.haveStatus == (w.link.haveStatus || (e.Reply? && e.reference == MESSAGE_MODULE_STATUS))
             && !HaveAll(z.link)
    ensures !(Promising(w) && Told(w))
  {
    hide FlowInv, HandshakeInv, PhaseInv, CacheInv, EncoderInv, SampleInv, StatusInv, LogInv, RestInv;
    AnswerShape(w, i);
    forall k: nat | k < |w.log| && Pending(w, k) ensures k == i { LastAnswer(w, i, k); }
    if j :| Reported(w, j) {
      assert Pending(w, j);
    }
  }

  /** Taking in an answer loses nothing, and finds nothing again. */
  lemma AnswerKeepsLoss(w: World, i: nat, io: Samples, now: uint64)
    requires Inv(w) && i in w.outbox && i < |w.log| && Ordered(w.link) && Readable(w.link, w.outbox[i])
    ensures Lost(Deliver(w, Queued(i, io, now))) <==> Lost(w)
  {
    hide Deliver, RestInv, FlowInv, HandshakeInv, PhaseInv, CacheInv, EncoderInv, SampleInv, StatusInv, LogInv, Coming,
         Told, Readable;
    var z := Deliver(w, Queued(i, io, now));
    AnswerAndFlags(w, i, io, now);
    AnswerEffects(w, i, io, now);
    ToldAfter(w, z, i);
    if z.batches > w.batches {
      FiredPromise(w, z, i);
    } else {
      ComingAfter(w, z, i, MESSAGE_BATTERY_VOLTAGE);
      ComingAfter(w, z, i, MESSAGE_BULK_INPUT);
      if w.link.queue == [] && w.link.window == 1 && w.link.sendState == WaitingForPackets {
        CutBreaksNoPromise(w, z, i);
      }
    }
  }

  /** The reply that releases the batch kept the promise. */
  lemma FiredPromise(w: World, z: World, i: nat)
    requires Core(w) && i in w.outbox && w.link.sendState == WaitingForPackets && HaveAll(z.link)
    requires var e := w.outbox[i];
             && z.link.haveBattery == (w.link.haveBattery || (e.Reply? && e.reference == MESSAGE_BATTERY_VOLTAGE))
             && z.link.haveBulk == (w.link.haveBulk || (e.Reply? && e.reference == MESSAGE_BULK_INPUT))
    ensures Promising(w)
  {
    hide Core, Coming;
    if !w.link.haveBattery { WasComing(w, i, MESSAGE_BATTERY_VOLTAGE); }
    if !w.link.haveBulk { WasComing(w, i, MESSAGE_BULK_INPUT); }
  }

  /** Only the handshake facts, the store or the clock differ. */
  lemma SameEvidence(w: World, z: World)
    requires SameTransaction(w.link, z.link)
    requires z.device.raised == w.device.raised && z.outbox == w.outbox && z.log == w.log
    requires z.processed == w.processed && z.unacted == w.unacted
    ensures Lost(z) <==> Lost(w)
  {
    hide SameTransaction;
    assert SameTransaction(w.link, z.link) ==>
             && z.link.haveBattery == w.link.haveBattery && z.link.haveBulk == w.link.haveBulk
             && z.link.haveStatus == w.link.haveStatus && z.link.deviceReset == w.link.deviceReset
             && z.link.sendState == w.link.sendState by { FlagsSame(w.link, z.link); }
    forall i ensures Reported(z, i) <==> Reported(w, i) {
    }
    forall i: nat ensures Pending(z, i) <==> Pending(w, i) {
    }
  }

  lemma FlagsSame(l: Link, l': Link)
    ensures SameTransaction(l, l') ==>
              && l'.haveBattery == l.haveBattery && l'.haveBulk == l.haveBulk && l'.haveStatus == l.haveStatus
              && l'.deviceReset == l.deviceReset && l'.sendState == l.sendState
  {
  }

  lemma PickKeepsLoss(w: World, pick: Pick)
    requires Inv(w) && CanDeliver(w, pick)
    ensures Lost(DeliverOne(w, pick)) <==> Lost(w)
  {
    hide Lost, Handle, Inv;
    DeliverKeepsInv(w, pick);
    match pick
    case Queued(i, io, now) =>
      AnswerKeepsLoss(w, i, io, now);
    case Handshake(_, _, _, _) =>
      GreetingOnWire(w, pick);
      SameEvidence(w, DeliverOne(w, pick));
  }

  lemma {:induction false} PicksKeepLoss(w: World, picks: seq<Pick>)
    requires Inv(w) && AllDeliverable(w, picks)
    ensures Lost(DeliverAll(w, picks)) <==> Lost(w)
    decreases |picks|
  {
    hide Inv, Lost, DeliverOne, CanDeliver;
    if picks != [] {
      PickKeepsLoss(w, picks[0]);
      PicksKeepLoss(DeliverOne(w, picks[0]), picks[1..]);
    }
  }

  /** A read neither loses a power cycle nor finds a lost one. */
  lemma ReadKeepsLoss(w: World, picks: seq<Pick>)
    requires Inv(w) && AllDeliverable(w, picks)
    ensures Lost(Flushed(DeliverAll(w, picks))) <==> Lost(w)
  {
    hide Inv, Lost, DeliverAll, Flush, Flushed;
    PicksKeepLoss(w, picks);
    var v := DeliverAll(w, picks);
    FlushedFields(v);
    FlushKeepsLoss(v, Flushed(v));
  }

  lemma FlushKeepsLoss(w: World, z: World)
    requires z == w.(link := z.link, written := z.written, open := z.open)
    requires z.link == w.link.(queue := z.link.queue, window := z.link.window)
    ensures Lost(z) <==> Lost(w)
  {
    forall i ensures Reported(z, i) <==> Reported(w, i) {
    }
    forall i: nat ensures Pending(z, i) <==> Pending(w, i) {
    }
  }

  // ---- Working off a frame ----

  lemma DeadLosesIff(w: World, applied: bool)
    requires w.dead != []
    ensures Lost(ProcessDead(w, applied)) <==>
            Lost(w) || (w.unacted && Evident(w) && ProcessLoses(w, applied, None))
  {
    hide Interpret;
    var z := ProcessDead(w, applied);
    forall i ensures Reported(z, i) <==> Reported(w, i) {
    }
    forall i: nat ensures Pending(z, i) <==> Pending(w, i) {
    }
  }

  /** The next frame keeps its reply coming if and only if it is answered by one. */
  lemma ComingAfterProcess(w: World, applied: bool, answer: Option<Event>, number: int)
    requires FlowInv(w) && LogInv(w) && w.dead == [] && CanProcess(w, applied, answer)
    ensures Coming(ProcessLive(w, applied, answer), number) <==>
            Coming(w, number) && (w.log[w.processed].number as int == number ==> IsReply(answer))
  {
    hide Interpret, Fits, StatusFits, Understood;
    var z := ProcessLive(w, applied, answer);
    AnswersAreEarlier(w);
    hide FlowInv;
    forall k: nat | k < |w.log| && w.log[k].number as int == number
      ensures Pending(z, k) <==> Pending(w, k) && (k == w.processed ==> IsReply(answer))
    {
    }
  }

  /** A status reply reports the flag as the hub read it. */
  lemma ToldAfterProcess(w: World, applied: bool, answer: Option<Event>)
    requires FlowInv(w) && LogInv(w) && w.dead == [] && CanProcess(w, applied, answer)
    ensures Told(ProcessLive(w, applied, answer)) <==>
            Told(w) || (w.device.raised && ReadsStatus(w) && IsReply(answer))
  {
    hide Interpret;
    var z, p := ProcessLive(w, applied, answer), w.log[w.processed];
    AnswersAreEarlier(w);
    assert Understood(w.hub, p);
    hide FlowInv, LogInv;
    forall i | i != w.processed ensures Reported(z, i) <==> Reported(w, i) {
    }
    assert Reported(z, w.processed) <==> w.device.raised && ReadsStatus(w) && IsReply(answer);
    assert !Reported(w, w.processed);
  }

  lemma StatusIsNotNeeded(w: World)
    requires LogInv(w) && w.dead == [] && w.processed < |w.log| && ReadsStatus(w)
    ensures w.log[w.processed].number == MESSAGE_MODULE_STATUS
  {
    hide Interpret;
    assert Understood(w.hub, w.log[w.processed]);
  }

  lemma LiveLosesIff(w: World, applied: bool, answer: Option<Event>)
    requires FlowInv(w) && LogInv(w) && w.dead == [] && CanProcess(w, applied, answer)
    ensures Lost(ProcessLive(w, applied, answer)) <==>
            Lost(w) || (w.unacted && Evident(w) && ProcessLoses(w, applied, answer))
  {
    hide Coming, Told, Interpret, FlowInv, LogInv, Fits, StatusFits;
    var z := ProcessLive(w, applied, answer);
    ToldAfterProcess(w, applied, answer);
    ComingAfterProcess(w, applied, answer, MESSAGE_BATTERY_VOLTAGE);
    ComingAfterProcess(w, applied, answer, MESSAGE_BULK_INPUT);
    if ReadsStatus(w) {
      StatusIsNotNeeded(w);
    }
    assert answer.Some? && answer.value.Reply? ==> applied;
    assert z.device.raised <==> w.device.raised && !(applied && ReadsStatus(w));
  }

  // ---- Ticks, power cycles and new devices ----

  lemma StartLosesIff(w: World, io: Samples, canEnable: bool, time: uint64)
    requires Inv(w) && Starts(w.link, time, w.lastLoop)
    ensures Lost(Tick(w, io, canEnable, time)) <==> w.unacted && !w.device.raised
  {
    hide PhaseInv, StatusInv, RestInv, LogInv, CacheInv, EncoderInv, SampleInv, Interval;
    TickOpens(w, io, canEnable, time);
    OpenedLink(w.link, w.store, io, canEnable);
    hide OnUpdate, Tick, Flush, Opening, InitialPackets, InitialStore, Coming;
  }

  lemma TickLosesIff(w: World, io: Samples, canEnable: bool, time: uint64)
    requires Inv(w)
    ensures Lost(Tick(w, io, canEnable, time)) <==>
            Lost(w) || (w.unacted && Evident(w) && Starts(w.link, time, w.lastLoop) && !w.device.raised)
  {
    hide Tick, Promising, Told, Interval, PhaseInv, StatusInv, RestInv, LogInv, CacheInv, EncoderInv, SampleInv;
    if Starts(w.link, time, w.lastLoop) {
      StartLosesIff(w, io, canEnable, time);
    } else {
      QuietTickFields(w, io, canEnable, time);
      SameEvidence(w, Tick(w, io, canEnable, time));
    }
  }

  /**
   * Exactly which steps lose a power cycle. After a step it is lost if and only if the step is a losing one, or it was
   * lost already and the step is no new power cycle and no new device.
   */
  lemma StepLosesIff(w: World, s: Step)
    requires Inv(w) && Enabled(w, s)
    ensures Lost(Next(w, s)) <==> Loses(w, s) || (Lost(w) && !s.PowerCycle? && !s.Reconnect?)
  {
    hide Core, RestInv, Tick, DeliverAll, Flushed, ProcessLive, ProcessDead, Evident, Starts, ProcessLoses;
    match s
    case Timer(io, canEnable, time) => TickLosesIff(w, io, canEnable, time);
    case Process(applied, answer) =>
      if w.dead != [] {
        DeadLosesIff(w, applied);
      } else {
        assert FlowInv(w) && LogInv(w) by { Parts(w); }
        LiveLosesIff(w, applied, answer);
      }
    case Read(picks) => ReadKeepsLoss(w, picks);
    case PowerCycle(registers) => RaisedIsEvident(PowerCycled(w, registers));
    case Reconnect(_, _, _, _) =>
  }

  lemma Parts(w: World)
    requires Core(w)
    ensures FlowInv(w) && LogInv(w)
  {
    hide FlowInv, LogInv;
  }

  lemma RaisedIsEvident(w: World)
    ensures w.device.raised ==> Evident(w)
  {
  }

  // ---- Runs ----

  ghost predicate NothingLost(w: World, steps: seq<Step>)
    requires Inv(w) && AllEnabled(w, steps)
    decreases |steps|
  {
    steps != [] ==> !Loses(w, steps[0]) && NothingLost(Next(w, steps[0]), steps[1..])
  }

  /** In every state of the run, a power cycle that no batch has acted on is evident. */
  ghost predicate AlwaysEvident(w: World, steps: seq<Step>)
    requires Inv(w) && AllEnabled(w, steps)
    decreases |steps|
  {
    !Lost(w) && (steps != [] ==> AlwaysEvident(Next(w, steps[0]), steps[1..]))
  }

  /** A run keeps every power cycle evident if and only if none of its steps is a losing one. */
  lemma {:induction false} EvidenceSurvives(w: World, steps: seq<Step>)
    requires Inv(w) && AllEnabled(w, steps) && !Lost(w)
    ensures AlwaysEvident(w, steps) <==> NothingLost(w, steps)
    ensures NothingLost(w, steps) ==> !Lost(Run(w, steps))
    decreases |steps|
  {
    hide Inv, Enabled, Next, Lost, Loses;
    if steps != [] {
      StepLosesIff(w, steps[0]);
      if !Loses(w, steps[0]) {
        EvidenceSurvives(Next(w, steps[0]), steps[1..]);
      }
    }
  }

  /** What is lost stays lost, whatever batches follow, until the hub loses power again or is replaced. */
  lemma {:induction false} LostStaysLost(w: World, steps: seq<Step>)
    requires Inv(w) && AllEnabled(w, steps) && Lost(w)
    requires forall s :: s in steps ==> !s.PowerCycle? && !s.Reconnect?
    ensures Lost(Run(w, steps))
    decreases |steps|
  {
    hide Inv, Enabled, Next, Lost, Loses;
    if steps != [] {
      StepLosesIff(w, steps[0]);
      assert steps[0] in steps;
      LostStaysLost(Next(w, steps[0]), steps[1..]);
    }
  }

  /**
   * In a run without losing steps, a cached value is wrong only while the hub's flag is up or the flag is on its way
   * into a batch that forgets every cache.
   */
  lemma CoherentOrTold(w: World, steps: seq<Step>, r: Register, v: int)
    requires Inv(w) && AllEnabled(w, steps) && NothingLost(w, steps) && !Lost(w)
    requires CacheOf(Run(w, steps).store, r).lastAcked == Some(v)
    ensures Run(w, steps).device.registers(r) == v || Evident(Run(w, steps))
  {
    hide Run, Inv, Evident, CacheOf, NothingLost;
    CacheCoherence(w, steps, r, v);
    EvidenceSurvives(w, steps);
  }

  // ---- What acts on a power cycle, and how one is lost ----

  /** A quiet status reply that overwrites the flag comes too late to lose anything: the power cycle was lost before. */
  lemma OverwritingComesTooLate(w: World, pick: Pick)
    requires Inv(w) && CanDeliver(w, pick) && pick.Queued? && w.unacted && !w.device.raised
    requires var e := w.outbox[pick.index];
             e.Reply? && e.reference == MESSAGE_MODULE_STATUS && |e.payload| >= 1 && e.payload[0] == 0
    ensures Lost(w) && Lost(DeliverOne(w, pick))
  {
    hide Core, RestInv, DeliverOne, Promising;
    if w.link.haveStatus {
      StatusIsIn(w, pick.index);
    }
    forall j ensures !Reported(w, j) {
      if j in w.outbox && j != pick.index { ReportsAreOne(w, pick.index, j); }
    }
    PickKeepsLoss(w, pick);
  }

  /** A batch issued with the reset flag acts on the power cycle: every cache is emptied and every register rewritten. */
  lemma ResetBatchActs(w: World, i: nat, io: Samples, now: uint64, r: Register)
    requires Inv(w) && CanDeliver(w, Queued(i, io, now))
    requires var z := DeliverOne(w, Queued(i, io, now)); z.batches > w.batches && z.link.deviceReset
    ensures var z := DeliverOne(w, Queued(i, io, now));
            && !z.unacted
            && CacheOf(z.store, r).lastAcked.None?
            && (Holds(z.log, NumberOf(r)) || Suppressed(r, SampledCode(io, z.link.canEnable, r)))
  {
    hide FlowInv, PhaseInv, StatusInv, LogInv, CacheInv, EncoderInv, SampleInv, RestInv, Issued, CommandPackets,
         CommandStore, Deliver, CacheOf, SampledCode, Suppressed, Holds, Flush, GoodPhase;
    DeliverKeepsInv(w, Queued(i, io, now));
    AnswerAndFlags(w, i, io, now);
    SettleKeepsCore(w, i, io);
    DeliverInParts(w, i, io, now);
    var w1 := Settled(w, i, io);
    assert w1.batches == w.batches;
    IssuedFields(w1, io);
    CommandBatch(w1.store, io, w1.link.canEnable, w1.link.deviceReset, TargetOf(w1.link));
    CommandCaches(w1.store, io, w1.link.canEnable, w1.link.deviceReset, r);
    JoinHolds(w1.log, CommandPackets(w1.store, io, w1.link.canEnable, w1.link.deviceReset, TargetOf(w1.link)), NumberOf(r));
  }

  /**
   * How a power cycle gets lost without any frame being lost: the status reply reports it, the battery request of the
   * same transaction is refused, and the next transaction's quiet status reply overwrites the flag. No batch was
   * issued in between and every cache still holds what it held.
   */
  lemma RefusedBatteryLosesReset(l: Link, st: Store, io: Samples, now: uint64, later: uint64, lastLoop: uint64, r: Register)
    requires Ordered(l) && l.sendState == WaitingForPackets
    requires l.haveStatus && l.haveBulk && !l.haveBattery && l.deviceReset && l.queue == [] && l.window == 1
    requires UsableInterface(l.interfaceId.value)
    ensures var o := Handle(l, st, Nack(MESSAGE_BATTERY_VOLTAGE, [0]), io, now);
            && o.link.sendState == ReadyToSend && o.link.queue == [] && o.link.deviceReset && !o.fired
            && var u := OnUpdate(o.link, o.store, io, true, later, lastLoop).outcome;
            var q := Handle(u.link, u.store, Reply(MESSAGE_MODULE_STATUS, [0]), io, later);
            && !q.fired && !q.link.deviceReset
            && CacheOf(q.store, r) == CacheOf(st, r)
  {
    var o := Handle(l, st, Nack(MESSAGE_BATTERY_VOLTAGE, [0]), io, now);
    assert o.link == l.(window := 0, sendState := ReadyToSend) && SameCommands(st, o.store) && !o.fired;
    OpenedLink(o.link, o.store, io, true);
    UpdateOpens(o.link, o.store, io, true, later, lastLoop);
    var u := OnUpdate(o.link, o.store, io, true, later, lastLoop).outcome;
    assert !u.link.haveBattery && u.link.sendState == WaitingForPackets && u.store == InitialStore(o.store, io);
    hide Handle, OnUpdate, InitialPackets, InitialStore, Flush, Opening;
    InitialCaches(o.store, io, r);
    QuietStatusOverwrites(u.link, u.store, io, later);
  }

  lemma QuietStatusOverwrites(l: Link, st: Store, io: Samples, now: uint64)
    requires Ordered(l) && l.sendState == WaitingForPackets && !l.haveBattery
    ensures var q := Handle(l, st, Reply(MESSAGE_MODULE_STATUS, [0]), io, now);
            !q.fired && !q.link.deviceReset && q.store == st
  {
    hide IssueCommands;
  }
}
