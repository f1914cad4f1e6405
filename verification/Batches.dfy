/** What the two packet batches of a transaction contain, packet by packet and register by register. */
module Batches {
  import opened Bytes
  import opened Caches
  import opened Frames
  import opened Messages
  import opened Stores
  import opened Wrappers

  predicate Apart(a: seq<Packet>, b: seq<Packet>) {
    forall i, j :: 0 <= i < |a| && 0 <= j < |b| ==> a[i].number != b[j].number
  }

  lemma JoinDistinct(a: seq<Packet>, b: seq<Packet>)
    requires Distinct(a) && Distinct(b) && Apart(a, b)
    ensures Distinct(a + b)
  {
  }

  lemma JoinHolds(a: seq<Packet>, b: seq<Packet>, n: int)
    ensures Holds(a + b, n) <==> Holds(a, n) || Holds(b, n)
  {
    if i :| 0 <= i < |a| && a[i].number == n {
      assert (a + b)[i].number == n;
    }
    if i :| 0 <= i < |b| && b[i].number == n {
      assert (a + b)[|a| + i].number == n;
    }
  }

  // ---- The opening batch ----

  lemma ResetsUnderstood(st: Store, t: Target)
    requires UsableInterface(t.interfaceId)
    ensures NumberedFrom(ResetPhase(st, t), MESSAGE_MOTOR_RESET_ENCODER_0)
    ensures AllUnderstood(Flatten(ResetPhase(st, t)), t)
    ensures forall i: MotorIndex ::
              Holds(Flatten(ResetPhase(st, t)), MESSAGE_MOTOR_RESET_ENCODER_0 + i) <==> st.motors[i].doReset
  {
    var xs, base: int := ResetPhase(st, t), MESSAGE_MOTOR_RESET_ENCODER_0;
    forall k | 0 <= k < |Flatten(xs)| ensures Understood(t, Flatten(xs)[k]) {
      PhaseElements(xs, base, k);
      MotorCommandsUnderstood(t, Flatten(xs)[k].number - base, false, 0.0);
    }
    forall i: MotorIndex ensures Holds(Flatten(xs), base + i) <==> st.motors[i].doReset {
      PhaseHolds(xs, base, i);
    }
  }

  lemma PulsesUnderstood(io: Samples, t: Target)
    requires UsableInterface(t.interfaceId)
    ensures NumberedFrom(PulsePhase(io, t), MESSAGE_SERVO_PULSE_WIDTH_0)
    ensures AllUnderstood(Flatten(PulsePhase(io, t)), t)
  {
    var xs, base: int := PulsePhase(io, t), MESSAGE_SERVO_PULSE_WIDTH_0;
    forall k | 0 <= k < |Flatten(xs)| ensures Understood(t, Flatten(xs)[k]) {
      PhaseElements(xs, base, k);
      var i: ServoIndex := Flatten(xs)[k].number - base;
      ServoCommandsUnderstood(t, i, false, io.servos[i].pulseWidth % 0x1_0000);
    }
  }

  /** Numbers of the opening batch: status, keep-alive, battery, bulk, encoder resets and pulse widths. */
  predicate OpeningNumber(n: int) {
    || MESSAGE_BULK_INPUT <= n <= MESSAGE_BATTERY_VOLTAGE
    || MESSAGE_MOTOR_RESET_ENCODER_0 <= n < MESSAGE_MOTOR_SET_RUN_MODE_0
    || MESSAGE_SERVO_PULSE_WIDTH_0 <= n < MESSAGE_MOTOR_ENABLE_0
  }

  /**
   * The opening batch: at most fourteen packets of different numbers, none of which writes a cached register; an
   * encoder reset for exactly the motors with a request open.
   */
  lemma OpeningBatch(st: Store, io: Samples, t: Target)
    requires UsableInterface(t.interfaceId)
    ensures var ps := InitialPackets(st, io, t);
            && 4 <= |ps| <= 14
            && Distinct(ps)
            && AllUnderstood(ps, t)
            && (forall i :: 0 <= i < |ps| ==> OpeningNumber(ps[i].number))
            && (forall i: MotorIndex ::
                  Holds(ps, MESSAGE_MOTOR_RESET_ENCODER_0 + i) <==> InitialStore(st, io).motors[i].doReset)
            && Holds(ps, MESSAGE_MODULE_STATUS) && Holds(ps, MESSAGE_BATTERY_VOLTAGE) && Holds(ps, MESSAGE_BULK_INPUT)
  {
    hide Flatten, ResetPhase, PulsePhase, Understood, InitialStore;
    var st' := InitialStore(st, io);
    var a, b := [KeepAlive(t), ModuleStatus(t)], Flatten(ResetPhase(st', t));
    var c, d := [BatteryRequest(t), BulkInput(t)], Flatten(PulsePhase(io, t));
    RequestsUnderstood(t);
    ResetsUnderstood(st', t);
    PulsesUnderstood(io, t);
    PhaseNumbers(ResetPhase(st', t), MESSAGE_MOTOR_RESET_ENCODER_0);
    PhaseNumbers(PulsePhase(io, t), MESSAGE_SERVO_PULSE_WIDTH_0);
    OpeningParts(a, b, c, d, t);
    forall i: MotorIndex
      ensures Holds(a + b + c + d, MESSAGE_MOTOR_RESET_ENCODER_0 + i) <==> st'.motors[i].doReset
    {
      var n := MESSAGE_MOTOR_RESET_ENCODER_0 + i;
      JoinHolds(a, b, n);
      JoinHolds(a + b, c, n);
      JoinHolds(a + b + c, d, n);
    }
    assert (a + b + c + d)[1] == a[1] && (a + b + c + d)[|a + b|] == c[0] && (a + b + c + d)[|a + b| + 1] == c[1];
  }

  lemma OpeningParts(a: seq<Packet>, b: seq<Packet>, c: seq<Packet>, d: seq<Packet>, hub: Target)
    requires |a| == |c| == 2 && |b| <= NUM_MOTORS && |d| <= NUM_SERVOS
    requires a[0].number == MESSAGE_KEEP_ALIVE && a[1].number == MESSAGE_MODULE_STATUS
    requires c[0].number == MESSAGE_BATTERY_VOLTAGE && c[1].number == MESSAGE_BULK_INPUT
    requires Distinct(b) && Within(b, MESSAGE_MOTOR_RESET_ENCODER_0, MESSAGE_MOTOR_SET_RUN_MODE_0)
    requires Distinct(d) && Within(d, MESSAGE_SERVO_PULSE_WIDTH_0, MESSAGE_MOTOR_ENABLE_0)
    requires AllUnderstood(a, hub) && AllUnderstood(b, hub)
    requires AllUnderstood(c, hub) && AllUnderstood(d, hub)
    ensures Distinct(a + b + c + d) && AllUnderstood(a + b + c + d, hub)
    ensures forall i :: 0 <= i < |a + b + c + d| ==> OpeningNumber((a + b + c + d)[i].number)
  {
    hide Understood;
    JoinDistinct(a, b);
    JoinDistinct(a + b, c);
    JoinDistinct(a + b + c, d);
  }

  lemma {:induction false} FlattenSize(xs: seq<seq<Packet>>)
    requires forall i :: 0 <= i < |xs| ==> |xs[i]| <= 1
    ensures |Flatten(xs)| <= |xs|
    ensures Flatten(xs) == [] <==> forall i :: 0 <= i < |xs| ==> xs[i] == []
  {
    if xs != [] {
      FlattenSize(xs[..|xs| - 1]);
    }
  }

  /** No encoder request is open, none is new, and every pulse width is one that is never sent. */
  predicate Bare(st: Store, io: Samples) {
    && (forall i: MotorIndex :: !st.motors[i].doReset && io.motors[i].resetTime == st.motors[i].lastResetTime)
    && forall i: ServoIndex :: io.servos[i].pulseWidth % 0x1_0000 == 0
  }

  lemma AtMostOneEach(st: Store, io: Samples, t: Target)
    ensures |Flatten(ResetPhase(st, t))| <= NUM_MOTORS && |Flatten(PulsePhase(io, t))| <= NUM_SERVOS
  {
    hide Flatten;
    FlattenSize(ResetPhase(st, t));
    FlattenSize(PulsePhase(io, t));
  }

  lemma NoResets(st: Store, io: Samples, t: Target)
    ensures Flatten(ResetPhase(InitialStore(st, io), t)) == [] <==>
            forall i: MotorIndex :: !st.motors[i].doReset && io.motors[i].resetTime == st.motors[i].lastResetTime
  {
    hide Flatten;
    var xs := ResetPhase(InitialStore(st, io), t);
    FlattenSize(xs);
    forall i: MotorIndex
      ensures xs[i] == [] <==> !st.motors[i].doReset && io.motors[i].resetTime == st.motors[i].lastResetTime
    {
    }
  }

  lemma NoPulses(io: Samples, t: Target)
    ensures Flatten(PulsePhase(io, t)) == [] <==> forall i: ServoIndex :: io.servos[i].pulseWidth % 0x1_0000 == 0
  {
    hide Flatten;
    var xs := PulsePhase(io, t);
    FlattenSize(xs);
    forall i: ServoIndex ensures xs[i] == [] <==> io.servos[i].pulseWidth % 0x1_0000 == 0 {
    }
  }

  lemma BareStoreStays(st: Store, io: Samples)
    requires Bare(st, io)
    ensures InitialStore(st, io) == st
  {
    assert InitialStore(st, io).motors == st.motors;
  }

  /** The size of the opening batch, whatever the interface id: only a bare one has no more than its four requests. */
  lemma OpeningSize(st: Store, io: Samples, t: Target)
    ensures 4 <= |InitialPackets(st, io, t)| <= 14
    ensures |InitialPackets(st, io, t)| == 4 <==> Bare(st, io)
    ensures Bare(st, io) ==>
              && InitialPackets(st, io, t) == [KeepAlive(t), ModuleStatus(t), BatteryRequest(t), BulkInput(t)]
              && InitialStore(st, io) == st
  {
    hide Flatten, ResetPhase, PulsePhase, InitialStore, Bare;
    AtMostOneEach(InitialStore(st, io), io, t);
    BareIff(st, io, t);
    if Bare(st, io) {
      BareStoreStays(st, io);
    }
  }

  lemma BareIff(st: Store, io: Samples, t: Target)
    ensures Bare(st, io) <==> Flatten(ResetPhase(InitialStore(st, io), t)) == [] && Flatten(PulsePhase(io, t)) == []
  {
    hide Flatten, ResetPhase, PulsePhase, InitialStore;
    NoResets(st, io, t);
    NoPulses(io, t);
  }

  // ---- The command batch ----

  predicate GoodPhase(ps: seq<Packet>, hub: Target, after: Store) {
    && Distinct(ps)
    && forall i :: 0 <= i < |ps| ==> GoodPacket(ps[i], hub, after)
  }

  lemma JoinPhases(a: seq<Packet>, b: seq<Packet>, hub: Target, after: Store)
    requires GoodPhase(a, hub, after) && GoodPhase(b, hub, after) && Apart(a, b)
    ensures GoodPhase(a + b, hub, after)
  {
    hide GoodPacket;
    JoinDistinct(a, b);
  }

  lemma PhaseIsGood(xs: seq<seq<Packet>>, base: int, hub: Target, after: Store)
    requires NumberedFrom(xs, base)
    requires forall i :: 0 <= i < |xs| && xs[i] != [] ==> GoodPacket(xs[i][0], hub, after)
    ensures GoodPhase(Flatten(xs), hub, after)
    ensures Within(Flatten(xs), base, base + |xs|) && |Flatten(xs)| <= |xs|
    ensures forall i :: 0 <= i < |xs| ==> (Holds(Flatten(xs), base + i) <==> xs[i] != [])
  {
    hide GoodPacket, Flatten;
    PhaseNumbers(xs, base);
    forall k | 0 <= k < |Flatten(xs)| ensures GoodPacket(Flatten(xs)[k], hub, after) {
      PhaseElements(xs, base, k);
      var i := Flatten(xs)[k].number - base;
      assert xs[i][0] == Flatten(xs)[k];
    }
    forall i | 0 <= i < |xs| { PhaseHolds(xs, base, i); }
  }

  lemma PowersAreGood(io: Samples, battery: real, t: Target, after: Store)
    requires UsableInterface(t.interfaceId)
    ensures var xs := PowerPhase(io, battery, t);
            && NumberedFrom(xs, MESSAGE_MOTOR_SET_CONSTANT_POWER_0)
            && forall i :: 0 <= i < |xs| ==> |xs[i]| == 1 && GoodPacket(xs[i][0], t, after)
  {
    hide SentPower, MotorPowers, PowerLevel;
    forall i: MotorIndex ensures GoodPacket(PowerPhase(io, battery, t)[i][0], t, after) {
      MotorCommandsUnderstood(t, i, false, SentPower(MotorPowers(io, battery), i));
    }
  }

  lemma CurrentsAreGood(t: Target, after: Store)
    requires UsableInterface(t.interfaceId)
    ensures var ys := CurrentPhase(t);
            && NumberedFrom(ys, MESSAGE_MOTOR_GET_CURRENT_0)
            && forall i :: 0 <= i < |ys| ==> |ys[i]| == 1 && GoodPacket(ys[i][0], t, after)
  {
    forall i: MotorIndex ensures GoodPacket(CurrentPhase(t)[i][0], t, after) {
      MotorCommandsUnderstood(t, i, false, 0.0);
    }
  }

  lemma PowerAndCurrent(io: Samples, battery: real, t: Target, after: Store)
    requires UsableInterface(t.interfaceId)
    ensures var a, b := Flatten(PowerPhase(io, battery, t)), Flatten(CurrentPhase(t));
            && GoodPhase(a + b, t, after)
            && Within(a + b, MESSAGE_MOTOR_SET_CONSTANT_POWER_0, MESSAGE_BULK_INPUT)
            && |a + b| == 2 * NUM_MOTORS
  {
    hide GoodPacket, PowerPhase, CurrentPhase;
    var xs, ys := PowerPhase(io, battery, t), CurrentPhase(t);
    PowersAreGood(io, battery, t, after);
    CurrentsAreGood(t, after);
    PhaseIsGood(xs, MESSAGE_MOTOR_SET_CONSTANT_POWER_0, t, after);
    PhaseIsGood(ys, MESSAGE_MOTOR_GET_CURRENT_0, t, after);
    FlattenSingles(xs);
    FlattenSingles(ys);
    hide GoodPhase, Flatten;
    JoinPhases(Flatten(xs), Flatten(ys), t, after);
  }

  /** The store after the batch, register by register: either still acknowledged at the sampled value, or attempted. */
  lemma AfterAttempt(base: Store, io: Samples, canEnable: bool, r: Register)
    ensures var c, code := CacheOf(AttemptAll(base, io, canEnable), r), SampledCode(io, canEnable, r);
            || (c == CacheOf(base, r) && c.lastAcked == Some(code))
            || c == Cache(None, code)
    ensures CacheOf(base, r).lastAcked.None? ==>
              CacheOf(AttemptAll(base, io, canEnable), r).lastAcked.None?
  {
  }

  lemma ModesAreGood(base: Store, io: Samples, canEnable: bool, t: Target)
    requires UsableInterface(t.interfaceId)
    ensures var ps, after := Flatten(ModePhase(base, io, t)), AttemptAll(base, io, canEnable);
            && GoodPhase(ps, t, after)
            && Within(ps, MESSAGE_MOTOR_SET_RUN_MODE_0, MESSAGE_MOTOR_SET_CONSTANT_POWER_0)
            && |ps| <= NUM_MOTORS
            && forall i: MotorIndex ::
                 Holds(ps, NumberOf(FloatMode(i))) <==> CacheOf(after, FloatMode(i)).lastAcked.None?
  {
    hide Interpret, Understood, Flatten, Holds;
    var xs: seq<seq<Packet>> := ModePhase(base, io, t);
    var after := AttemptAll(base, io, canEnable);
    forall i: MotorIndex
      ensures xs[i] != [] <==> CacheOf(after, FloatMode(i)).lastAcked.None?
      ensures xs[i] != [] ==> xs[i][0].number == MESSAGE_MOTOR_SET_RUN_MODE_0 + i && GoodPacket(xs[i][0], t, after)
    {
      MotorCommandsUnderstood(t, i, io.motors[i].floatOn0, 0.0);
    }
    hide GoodPacket, CacheOf;
    PhaseIsGood(xs, MESSAGE_MOTOR_SET_RUN_MODE_0, t, after);
    forall i: MotorIndex
      ensures Holds(Flatten(xs), NumberOf(FloatMode(i))) <==> xs[i] != []
    {
      assert NumberOf(FloatMode(i)) == MESSAGE_MOTOR_SET_RUN_MODE_0 + i;
    }
  }

  lemma EnablesAreGood(base: Store, io: Samples, canEnable: bool, t: Target)
    requires UsableInterface(t.interfaceId)
    ensures var ps, after := Flatten(EnablePhase(base, io, canEnable, t)), AttemptAll(base, io, canEnable);
            && GoodPhase(ps, t, after)
            && Within(ps, MESSAGE_MOTOR_ENABLE_0, MESSAGE_MOTOR_RESET_ENCODER_0)
            && |ps| <= NUM_MOTORS
            && forall i: MotorIndex ::
                 Holds(ps, NumberOf(Enable(i))) <==> CacheOf(after, Enable(i)).lastAcked.None?
  {
    hide Interpret, Understood, Flatten, Holds;
    var xs: seq<seq<Packet>> := EnablePhase(base, io, canEnable, t);
    var after := AttemptAll(base, io, canEnable);
    forall i: MotorIndex
      ensures xs[i] != [] <==> CacheOf(after, Enable(i)).lastAcked.None?
      ensures xs[i] != [] ==> xs[i][0].number == MESSAGE_MOTOR_ENABLE_0 + i && GoodPacket(xs[i][0], t, after)
    {
      MotorCommandsUnderstood(t, i, canEnable && io.motors[i].enabled, 0.0);
    }
    hide GoodPacket, CacheOf;
    PhaseIsGood(xs, MESSAGE_MOTOR_ENABLE_0, t, after);
    forall i: MotorIndex
      ensures Holds(Flatten(xs), NumberOf(Enable(i))) <==> xs[i] != []
    {
      assert NumberOf(Enable(i)) == MESSAGE_MOTOR_ENABLE_0 + i;
    }
  }

  lemma PeriodsAreGood(base: Store, io: Samples, canEnable: bool, t: Target)
    requires UsableInterface(t.interfaceId)
    ensures var ps, after := Flatten(PeriodPhase(base, io, t)), AttemptAll(base, io, canEnable);
            && GoodPhase(ps, t, after)
            && Within(ps, MESSAGE_SERVO_CONFIGURATION_0, MESSAGE_SERVO_PULSE_WIDTH_0)
            && |ps| <= NUM_SERVOS
            && forall i: ServoIndex ::
                 Holds(ps, NumberOf(Period(i))) <==>
                 CacheOf(after, Period(i)).lastAcked.None? && io.servos[i].framePeriod % 0x1_0000 > 1
  {
    hide Interpret, Understood, Flatten, Holds;
    var xs: seq<seq<Packet>> := PeriodPhase(base, io, t);
    var after := AttemptAll(base, io, canEnable);
    forall i: ServoIndex
      ensures xs[i] != [] <==> CacheOf(after, Period(i)).lastAcked.None? && io.servos[i].framePeriod % 0x1_0000 > 1
      ensures xs[i] != [] ==> xs[i][0].number == MESSAGE_SERVO_CONFIGURATION_0 + i && GoodPacket(xs[i][0], t, after)
    {
      var value: uint16 := io.servos[i].framePeriod % 0x1_0000;
      ServoCommandsUnderstood(t, i, false, value);
      if xs[i] != [] {
        assert xs[i][0] in ServoConfiguration(t, i, value);
      }
    }
    hide GoodPacket, CacheOf;
    PhaseIsGood(xs, MESSAGE_SERVO_CONFIGURATION_0, t, after);
    forall i: ServoIndex
      ensures Holds(Flatten(xs), NumberOf(Period(i))) <==> xs[i] != []
    {
      assert NumberOf(Period(i)) == MESSAGE_SERVO_CONFIGURATION_0 + i;
    }
  }

  lemma ServoOnsAreGood(base: Store, io: Samples, canEnable: bool, t: Target)
    requires UsableInterface(t.interfaceId)
    ensures var ps, after := Flatten(ServoOnPhase(base, io, canEnable, t)), AttemptAll(base, io, canEnable);
            && GoodPhase(ps, t, after)
            && Within(ps, MESSAGE_SERVO_ENABLE_0, MESSAGE_SERVO_CONFIGURATION_0)
            && |ps| <= NUM_SERVOS
            && forall i: ServoIndex ::
                 Holds(ps, NumberOf(ServoOn(i))) <==> CacheOf(after, ServoOn(i)).lastAcked.None?
  {
    hide Interpret, Understood, Flatten, Holds;
    var xs: seq<seq<Packet>> := ServoOnPhase(base, io, canEnable, t);
    var after := AttemptAll(base, io, canEnable);
    forall i: ServoIndex
      ensures xs[i] != [] <==> CacheOf(after, ServoOn(i)).lastAcked.None?
      ensures xs[i] != [] ==> xs[i][0].number == MESSAGE_SERVO_ENABLE_0 + i && GoodPacket(xs[i][0], t, after)
    {
      ServoCommandsUnderstood(t, i, canEnable && io.servos[i].enabled, 0);
    }
    hide GoodPacket, CacheOf;
    PhaseIsGood(xs, MESSAGE_SERVO_ENABLE_0, t, after);
    forall i: ServoIndex
      ensures Holds(Flatten(xs), NumberOf(ServoOn(i))) <==> xs[i] != []
    {
      assert NumberOf(ServoOn(i)) == MESSAGE_SERVO_ENABLE_0 + i;
    }
  }

  /** Numbers of the command batch: never one of the opening batch. */
  predicate CommandNumber(n: int) {
    || MESSAGE_MOTOR_SET_RUN_MODE_0 <= n < MESSAGE_BULK_INPUT
    || MESSAGE_MOTOR_ENABLE_0 <= n < MESSAGE_MOTOR_RESET_ENCODER_0
    || MESSAGE_SERVO_ENABLE_0 <= n < MESSAGE_SERVO_PULSE_WIDTH_0
  }

  /**
   * The command batch: between eight and twenty-eight packets of different numbers, each understood by the hub as
   * the write its cache attempts; a register is written exactly when its cache is left unacknowledged and the value
   * is not a suppressed frame period.
   */
  lemma CommandBatch(st: Store, io: Samples, canEnable: bool, deviceReset: bool, t: Target)
    requires UsableInterface(t.interfaceId)
    ensures var ps, after := CommandPackets(st, io, canEnable, deviceReset, t), CommandStore(st, io, canEnable, deviceReset);
            && 8 <= |ps| <= 28
            && GoodPhase(ps, t, after)
            && (forall i :: 0 <= i < |ps| ==> CommandNumber(ps[i].number))
            && (forall r: Register ::
                  Holds(ps, NumberOf(r)) <==>
                  CacheOf(after, r).lastAcked.None? && !Suppressed(r, SampledCode(io, canEnable, r)))
  {
    hide Flatten, GoodPhase, CacheOf, AttemptAll, CommandBase, PowerPhase, CurrentPhase, ModePhase, EnablePhase,
         PeriodPhase, ServoOnPhase;
    var base := CommandBase(st, deviceReset);
    var after := AttemptAll(base, io, canEnable);
    var a := Flatten(PowerPhase(io, st.lastBattery, t)) + Flatten(CurrentPhase(t));
    var b, c := Flatten(ModePhase(base, io, t)), Flatten(EnablePhase(base, io, canEnable, t));
    var d, e := Flatten(PeriodPhase(base, io, t)), Flatten(ServoOnPhase(base, io, canEnable, t));
    PowerAndCurrent(io, st.lastBattery, t, after);
    ModesAreGood(base, io, canEnable, t);
    EnablesAreGood(base, io, canEnable, t);
    PeriodsAreGood(base, io, canEnable, t);
    ServoOnsAreGood(base, io, canEnable, t);
    CommandParts(a, b, c, d, e, t, after);
    forall r: Register
      ensures Holds(a + b + c + d + e, NumberOf(r)) <==>
              CacheOf(after, r).lastAcked.None? && !Suppressed(r, SampledCode(io, canEnable, r))
    {
      RegisterHolds(a, b, c, d, e, r);
    }
  }

  /** Only the phase of its own kind can hold a register's packet. */
  lemma RegisterHolds(a: seq<Packet>, b: seq<Packet>, c: seq<Packet>, d: seq<Packet>, e: seq<Packet>, r: Register)
    requires Within(a, MESSAGE_MOTOR_SET_CONSTANT_POWER_0, MESSAGE_BULK_INPUT)
    requires Within(b, MESSAGE_MOTOR_SET_RUN_MODE_0, MESSAGE_MOTOR_SET_CONSTANT_POWER_0)
    requires Within(c, MESSAGE_MOTOR_ENABLE_0, MESSAGE_MOTOR_RESET_ENCODER_0)
    requires Within(d, MESSAGE_SERVO_CONFIGURATION_0, MESSAGE_SERVO_PULSE_WIDTH_0)
    requires Within(e, MESSAGE_SERVO_ENABLE_0, MESSAGE_SERVO_CONFIGURATION_0)
    ensures Holds(a + b + c + d + e, NumberOf(r)) <==>
            Holds(match r case FloatMode(_) => b case Enable(_) => c case Period(_) => d case ServoOn(_) => e, NumberOf(r))
  {
    var n := NumberOf(r);
    JoinHolds(a, b, n);
    JoinHolds(a + b, c, n);
    JoinHolds(a + b + c, d, n);
    JoinHolds(a + b + c + d, e, n);
  }

  lemma CommandParts(a: seq<Packet>, b: seq<Packet>, c: seq<Packet>, d: seq<Packet>, e: seq<Packet>,
                     hub: Target, after: Store)
    requires GoodPhase(a, hub, after) && Within(a, MESSAGE_MOTOR_SET_CONSTANT_POWER_0, MESSAGE_BULK_INPUT)
    requires GoodPhase(b, hub, after) && Within(b, MESSAGE_MOTOR_SET_RUN_MODE_0, MESSAGE_MOTOR_SET_CONSTANT_POWER_0)
    requires GoodPhase(c, hub, after) && Within(c, MESSAGE_MOTOR_ENABLE_0, MESSAGE_MOTOR_RESET_ENCODER_0)
    requires GoodPhase(d, hub, after) && Within(d, MESSAGE_SERVO_CONFIGURATION_0, MESSAGE_SERVO_PULSE_WIDTH_0)
    requires GoodPhase(e, hub, after) && Within(e, MESSAGE_SERVO_ENABLE_0, MESSAGE_SERVO_CONFIGURATION_0)
    ensures GoodPhase(a + b + c + d + e, hub, after)
    ensures forall i :: 0 <= i < |a + b + c + d + e| ==> CommandNumber((a + b + c + d + e)[i].number)
  {
    hide GoodPhase;
    JoinPhases(a, b, hub, after);
    JoinPhases(a + b, c, hub, after);
    JoinPhases(a + b + c, d, hub, after);
    JoinPhases(a + b + c + d, e, hub, after);
  }

  /** After a device reset, or with every cache empty, every register is written except suppressed frame periods. */
  lemma ResetBatchWritesEverything(st: Store, io: Samples, canEnable: bool, deviceReset: bool, t: Target, r: Register)
    requires UsableInterface(t.interfaceId)
    requires deviceReset || CacheOf(st, r).lastAcked.None?
    ensures var ps := CommandPackets(st, io, canEnable, deviceReset, t);
            Holds(ps, NumberOf(r)) <==> !Suppressed(r, SampledCode(io, canEnable, r))
  {
    CommandBatch(st, io, canEnable, deviceReset, t);
    ForgetAllForgets(st, r);
    AfterAttempt(CommandBase(st, deviceReset), io, canEnable, r);
  }

  /** Each batch sends every motor exactly one power command, carrying the power the follower rule gives it. */
  lemma OnePowerCommandPerMotor(st: Store, io: Samples, canEnable: bool, deviceReset: bool, t: Target, i: MotorIndex)
    requires UsableInterface(t.interfaceId)
    ensures var ps := CommandPackets(st, io, canEnable, deviceReset, t);
            && i < |ps|
            && Interpret(t, ps[i]).Power? && Interpret(t, ps[i]).motor == i
            && Scales(Interpret(t, ps[i]).level, SentPower(MotorPowers(io, st.lastBattery), i))
            && forall k :: 0 <= k < |ps| && k != i ==> ps[k].number != ps[i].number
  {
    CommandBatch(st, io, canEnable, deviceReset, t);
    var xs := PowerPhase(io, st.lastBattery, t);
    FlattenSingles(xs);
    MotorCommandsUnderstood(t, i, false, SentPower(MotorPowers(io, st.lastBattery), i));
    PowerLevelScales(SentPower(MotorPowers(io, st.lastBattery), i));
    assert CommandPackets(st, io, canEnable, deviceReset, t)[i] == Flatten(xs)[i];
  }

  lemma MotorSizes(st: Store, io: Samples, battery: real, canEnable: bool, t: Target)
    ensures |Flatten(PowerPhase(io, battery, t))| <= NUM_MOTORS && |Flatten(CurrentPhase(t))| <= NUM_MOTORS
    ensures |Flatten(ModePhase(st, io, t))| <= NUM_MOTORS && |Flatten(EnablePhase(st, io, canEnable, t))| <= NUM_MOTORS
  {
    hide Flatten, SentPower, MotorPowers, PowerLevel;
    FlattenSize(PowerPhase(io, battery, t));
    FlattenSize(CurrentPhase(t));
    FlattenSize(ModePhase(st, io, t));
    FlattenSize(EnablePhase(st, io, canEnable, t));
  }

  lemma ServoSizes(st: Store, io: Samples, canEnable: bool, t: Target)
    ensures |Flatten(PeriodPhase(st, io, t))| <= NUM_SERVOS && |Flatten(ServoOnPhase(st, io, canEnable, t))| <= NUM_SERVOS
  {
    hide Flatten;
    FlattenSize(PeriodPhase(st, io, t));
    FlattenSize(ServoOnPhase(st, io, canEnable, t));
  }

  /** The size of the command batch, whatever the interface id. */
  lemma CommandSize(st: Store, io: Samples, canEnable: bool, deviceReset: bool, t: Target)
    ensures |CommandPackets(st, io, canEnable, deviceReset, t)| <= 28
  {
    hide Flatten, PowerPhase, CurrentPhase, ModePhase, EnablePhase, PeriodPhase, ServoOnPhase;
    MotorSizes(CommandBase(st, deviceReset), io, st.lastBattery, canEnable, t);
    ServoSizes(CommandBase(st, deviceReset), io, canEnable, t);
  }
}
