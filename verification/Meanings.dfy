/** What the two batches of a transaction make the hub do: exactly these actions, and nothing else. */
module Meanings {
  import opened Batches
  import opened Bytes
  import opened Frames
  import opened Messages
  import opened Stores
  import opened Wrappers

  /** Some packet makes the hub do this. */
  predicate Does(ps: seq<Packet>, hub: Target, a: Action) {
    exists p :: p in ps && Interpret(hub, p) == a
  }

  lemma JoinDoes(a: seq<Packet>, b: seq<Packet>, hub: Target, x: Action)
    ensures Does(a + b, hub, x) <==> Does(a, hub, x) || Does(b, hub, x)
  {
    hide Interpret;
    if p :| p in a && Interpret(hub, p) == x {
      assert p in a + b;
    }
    if p :| p in b && Interpret(hub, p) == x {
      assert p in a + b;
    }
  }

  /** A phase of at most one packet per channel does what its channels do. */
  lemma PhaseDoes(xs: seq<seq<Packet>>, hub: Target, x: Action)
    ensures Does(Flatten(xs), hub, x) <==> exists i :: 0 <= i < |xs| && Does(xs[i], hub, x)
  {
    hide Interpret, Flatten;
    if p :| p in Flatten(xs) && Interpret(hub, p) == x {
      FlattenMember(xs, p);
      var i :| 0 <= i < |xs| && p in xs[i];
      assert Does(xs[i], hub, x);
    }
    if i :| 0 <= i < |xs| && Does(xs[i], hub, x) {
      var p :| p in xs[i] && Interpret(hub, p) == x;
      FlattenMember(xs, p);
    }
  }

  lemma OneDoes(p: Packet, hub: Target, x: Action)
    ensures Does([p], hub, x) <==> Interpret(hub, p) == x
    ensures !Does([], hub, x)
  {
    hide Interpret;
    assert p in [p];
  }

  // ---- The opening batch ----

  lemma ResetsDo(st: Store, t: Target, a: Action)
    requires UsableInterface(t.interfaceId)
    ensures Does(Flatten(ResetPhase(st, t)), t, a) <==> a.ZeroEncoder? && st.motors[a.motor].doReset
  {
    hide Interpret, Flatten, EncoderReset;
    PhaseDoes(ResetPhase(st, t), t, a);
    forall i: MotorIndex
      ensures Does(ResetPhase(st, t)[i], t, a) <==> st.motors[i].doReset && a == ZeroEncoder(i)
    {
      MotorCommandsUnderstood(t, i, false, 0.0);
      OneDoes(EncoderReset(t, i), t, a);
    }
    if a.ZeroEncoder? && st.motors[a.motor].doReset {
      assert Does(ResetPhase(st, t)[a.motor], t, a);
    }
  }

  lemma PulsesDo(io: Samples, t: Target, a: Action)
    requires UsableInterface(t.interfaceId)
    ensures Does(Flatten(PulsePhase(io, t)), t, a) <==>
            a.Pulse? && a.width == io.servos[a.servo].pulseWidth % 0x1_0000 && a.width != 0
  {
    hide Interpret, Flatten, ServoPulseWidth;
    PhaseDoes(PulsePhase(io, t), t, a);
    forall i: ServoIndex
      ensures Does(PulsePhase(io, t)[i], t, a) <==>
              a == Pulse(i, io.servos[i].pulseWidth % 0x1_0000) && io.servos[i].pulseWidth % 0x1_0000 != 0
    {
      ServoCommandsUnderstood(t, i, false, io.servos[i].pulseWidth % 0x1_0000);
      var ps := ServoPulseWidth(t, i, io.servos[i].pulseWidth % 0x1_0000);
      if ps != [] {
        assert ps == [ps[0]] && ps[0] in ps;
      }
    }
    if a.Pulse? && a.width == io.servos[a.servo].pulseWidth % 0x1_0000 && a.width != 0 {
      assert Does(PulsePhase(io, t)[a.servo], t, a);
    }
  }

  /** Whether a motor's encoder is to be zeroed: a request is open, or the time stamp is a new one. */
  predicate WantsReset(st: Store, io: Samples, i: MotorIndex) {
    st.motors[i].doReset || io.motors[i].resetTime != st.motors[i].lastResetTime
  }

  predicate OpeningAction(st: Store, io: Samples, a: Action) {
    match a
    case KeepAwake => true
    case ReadStatus(clear) => clear
    case ReadAdc(channel) => channel == 13
    case ReadBulk => true
    case ZeroEncoder(i) => WantsReset(st, io, i)
    case Pulse(i, width) => width == io.servos[i].pulseWidth % 0x1_0000 && width != 0
    case _ => false
  }

  lemma FourRequests(t: Target, a: Action)
    requires UsableInterface(t.interfaceId)
    ensures Does([KeepAlive(t), ModuleStatus(t)], t, a) <==> a == KeepAwake || a == ReadStatus(true)
    ensures Does([BatteryRequest(t), BulkInput(t)], t, a) <==> a == ReadAdc(13) || a == ReadBulk
  {
    hide Interpret, KeepAlive, ModuleStatus, BatteryRequest, BulkInput;
    RequestsUnderstood(t);
    OneDoes(KeepAlive(t), t, a);
    OneDoes(ModuleStatus(t), t, a);
    OneDoes(BatteryRequest(t), t, a);
    OneDoes(BulkInput(t), t, a);
    JoinDoes([KeepAlive(t)], [ModuleStatus(t)], t, a);
    JoinDoes([BatteryRequest(t)], [BulkInput(t)], t, a);
    assert [KeepAlive(t)] + [ModuleStatus(t)] == [KeepAlive(t), ModuleStatus(t)];
    assert [BatteryRequest(t)] + [BulkInput(t)] == [BatteryRequest(t), BulkInput(t)];
  }

  /**
   * The opening batch keeps the hub awake, reads and clears its status, asks for the battery and the bulk inputs,
   * zeroes exactly the encoders that are to be zeroed, and gives every servo its own pulse width unless that is zero.
   */
  lemma OpeningMeans(st: Store, io: Samples, t: Target, a: Action)
    requires UsableInterface(t.interfaceId)
    ensures Does(InitialPackets(st, io, t), t, a) <==> OpeningAction(st, io, a)
  {
    hide Does, Interpret, Flatten, ResetPhase, PulsePhase;
    var st' := InitialStore(st, io);
    var b, d := Flatten(ResetPhase(st', t)), Flatten(PulsePhase(io, t));
    FourRequests(t, a);
    ResetsDo(st', t, a);
    PulsesDo(io, t, a);
    JoinDoes([KeepAlive(t), ModuleStatus(t)], b, t, a);
    JoinDoes([KeepAlive(t), ModuleStatus(t)] + b, [BatteryRequest(t), BulkInput(t)], t, a);
    JoinDoes([KeepAlive(t), ModuleStatus(t)] + b + [BatteryRequest(t), BulkInput(t)], d, t, a);
  }

  // ---- The command batch ----

  /** The power a motor is given by the follower rule. */
  function SharedPower(io: Samples, battery: real, i: MotorIndex): real {
    SentPower(MotorPowers(io, battery), i)
  }

  predicate CommandAction(st: Store, io: Samples, canEnable: bool, deviceReset: bool, a: Action) {
    match a
    case Power(i, level) => Scales(level, SharedPower(io, st.lastBattery, i))
    case ReadAdc(channel) => 8 <= channel < 12
    case Write(r, value) =>
      && value == SampledCode(io, canEnable, r) && !Suppressed(r, value)
      && CacheOf(CommandStore(st, io, canEnable, deviceReset), r).lastAcked.None?
    case _ => false
  }

  lemma PowersDo(io: Samples, battery: real, t: Target, a: Action)
    requires UsableInterface(t.interfaceId)
    ensures Does(Flatten(PowerPhase(io, battery, t)), t, a) <==> a.Power? && Scales(a.level, SharedPower(io, battery, a.motor))
  {
    hide Interpret, Flatten, MotorConstantPower, PowerLevel, SharedPower, Scales, SentPower, MotorPowers;
    PhaseDoes(PowerPhase(io, battery, t), t, a);
    forall i: MotorIndex
      ensures Does(PowerPhase(io, battery, t)[i], t, a) <==>
              a.Power? && a.motor == i && Scales(a.level, SharedPower(io, battery, i))
    {
      var power := SentPower(MotorPowers(io, battery), i);
      assert SharedPower(io, battery, i) == power by { SharedIsSent(io, battery, i); }
      MotorCommandsUnderstood(t, i, false, power);
      OneDoes(MotorConstantPower(t, i, power), t, a);
      PowerLevelScales(power);
      if a.Power? && Scales(a.level, power) {
        ScalesOnce(a.level, PowerLevel(power), power);
      }
    }
    if a.Power? && Scales(a.level, SharedPower(io, battery, a.motor)) {
      assert Does(PowerPhase(io, battery, t)[a.motor], t, a);
    }
  }

  lemma SharedIsSent(io: Samples, battery: real, i: MotorIndex)
    ensures SharedPower(io, battery, i) == SentPower(MotorPowers(io, battery), i)
  {
    hide SentPower, MotorPowers;
  }

  lemma ScalesOnce(a: int, b: int, power: real)
    requires Scales(a, power) && Scales(b, power)
    ensures a == b
  {
  }

  lemma CurrentsDo(t: Target, a: Action)
    requires UsableInterface(t.interfaceId)
    ensures Does(Flatten(CurrentPhase(t)), t, a) <==> a.ReadAdc? && 8 <= a.channel < 12
  {
    hide Interpret, Flatten, MotorCurrentRequest;
    PhaseDoes(CurrentPhase(t), t, a);
    forall i: MotorIndex ensures Does(CurrentPhase(t)[i], t, a) <==> a.ReadAdc? && a.channel as int == 8 + i {
      MotorCommandsUnderstood(t, i, false, 0.0);
      OneDoes(MotorCurrentRequest(t, i), t, a);
    }
    if a.ReadAdc? && 8 <= a.channel < 12 {
      assert Does(CurrentPhase(t)[a.channel - 8], t, a);
    }
  }

  /** The packets of the four cached phases write registers and do nothing else. */
  lemma WritesDo(st: Store, io: Samples, canEnable: bool, deviceReset: bool, t: Target, a: Action)
    requires UsableInterface(t.interfaceId)
    ensures a.Write? ==>
              (Does(CommandPackets(st, io, canEnable, deviceReset, t), t, a) <==>
               CommandAction(st, io, canEnable, deviceReset, a))
  {
    hide Interpret, CommandPackets, CommandStore, CacheOf, SampledCode, Suppressed, Distinct;
    var ps, after := CommandPackets(st, io, canEnable, deviceReset, t), CommandStore(st, io, canEnable, deviceReset);
    CommandBatch(st, io, canEnable, deviceReset, t);
    if a.Write? {
      AfterCommand(st, io, canEnable, deviceReset, a.register);
      if p :| p in ps && Interpret(t, p) == a {
        var k :| 0 <= k < |ps| && ps[k] == p;
        assert GoodPacket(ps[k], t, after) && ps[k].number == NumberOf(a.register);
      }
      if Holds(ps, NumberOf(a.register)) && a.value == SampledCode(io, canEnable, a.register) {
        var k :| 0 <= k < |ps| && ps[k].number == NumberOf(a.register);
        assert GoodPacket(ps[k], t, after);
        NumberTellsAction(t, ps[k]);
        NumberingTiesReplyToRegister(a.register, ps[k].number);
        assert ps[k] in ps;
      }
    }
  }

  lemma AfterCommand(st: Store, io: Samples, canEnable: bool, deviceReset: bool, r: Register)
    ensures var c := CacheOf(CommandStore(st, io, canEnable, deviceReset), r);
            c.lastAcked.None? ==> c.lastAttempted == SampledCode(io, canEnable, r)
  {
    AfterAttempt(CommandBase(st, deviceReset), io, canEnable, r);
    hide CommandBase, AttemptAll, CacheOf, SampledCode;
  }

  lemma PhaseOnlyWrites(ps: seq<Packet>, t: Target, low: int, high: int, a: Action)
    requires AllUnderstood(ps, t) && Within(ps, low, high)
    requires forall n: byte :: low <= n < high ==> RegisterOf(n).Some?
    ensures Does(ps, t, a) ==> a.Write?
  {
    hide Interpret;
    if p :| p in ps && Interpret(t, p) == a {
      var k :| 0 <= k < |ps| && ps[k] == p;
      NumberTellsAction(t, ps[k]);
    }
  }

  lemma CachedOnlyWrite(base: Store, io: Samples, canEnable: bool, t: Target, a: Action)
    requires UsableInterface(t.interfaceId)
    ensures Does(Flatten(ModePhase(base, io, t)), t, a) ==> a.Write?
    ensures Does(Flatten(EnablePhase(base, io, canEnable, t)), t, a) ==> a.Write?
    ensures Does(Flatten(PeriodPhase(base, io, t)), t, a) ==> a.Write?
    ensures Does(Flatten(ServoOnPhase(base, io, canEnable, t)), t, a) ==> a.Write?
  {
    hide Does, Interpret, Flatten, ModePhase, EnablePhase, PeriodPhase, ServoOnPhase, AttemptAll, CacheOf, Holds, Within,
         Understood, SampledCode, Suppressed;
    ModesAreGood(base, io, canEnable, t);
    EnablesAreGood(base, io, canEnable, t);
    PeriodsAreGood(base, io, canEnable, t);
    ServoOnsAreGood(base, io, canEnable, t);
    PhaseOnlyWrites(Flatten(ModePhase(base, io, t)), t, MESSAGE_MOTOR_SET_RUN_MODE_0 as int,
                    MESSAGE_MOTOR_SET_CONSTANT_POWER_0 as int, a);
    PhaseOnlyWrites(Flatten(EnablePhase(base, io, canEnable, t)), t, MESSAGE_MOTOR_ENABLE_0 as int,
                    MESSAGE_MOTOR_RESET_ENCODER_0 as int, a);
    PhaseOnlyWrites(Flatten(PeriodPhase(base, io, t)), t, MESSAGE_SERVO_CONFIGURATION_0 as int,
                    MESSAGE_SERVO_PULSE_WIDTH_0 as int, a);
    PhaseOnlyWrites(Flatten(ServoOnPhase(base, io, canEnable, t)), t, MESSAGE_SERVO_ENABLE_0 as int,
                    MESSAGE_SERVO_CONFIGURATION_0 as int, a);
  }

  lemma CommandsInParts(st: Store, io: Samples, canEnable: bool, deviceReset: bool, t: Target, a: Action)
    requires UsableInterface(t.interfaceId)
    ensures Does(CommandPackets(st, io, canEnable, deviceReset, t), t, a) && !a.Write? ==>
              Does(Flatten(PowerPhase(io, st.lastBattery, t)), t, a) || Does(Flatten(CurrentPhase(t)), t, a)
    ensures Does(Flatten(PowerPhase(io, st.lastBattery, t)), t, a) || Does(Flatten(CurrentPhase(t)), t, a) ==>
              Does(CommandPackets(st, io, canEnable, deviceReset, t), t, a)
  {
    hide Does, Flatten, PowerPhase, CurrentPhase, ModePhase, EnablePhase, PeriodPhase, ServoOnPhase;
    var base := CommandBase(st, deviceReset);
    var p, q := Flatten(PowerPhase(io, st.lastBattery, t)), Flatten(CurrentPhase(t));
    var b, c := Flatten(ModePhase(base, io, t)), Flatten(EnablePhase(base, io, canEnable, t));
    var d, e := Flatten(PeriodPhase(base, io, t)), Flatten(ServoOnPhase(base, io, canEnable, t));
    CachedOnlyWrite(base, io, canEnable, t, a);
    JoinDoes(p, q, t, a);
    JoinDoes(p + q, b, t, a);
    JoinDoes(p + q + b, c, t, a);
    JoinDoes(p + q + b + c, d, t, a);
    JoinDoes(p + q + b + c + d, e, t, a);
  }

  /**
   * The command batch gives every motor the level its power scales to, asks for the four motor currents, and writes
   * exactly the registers whose caches it leaves unacknowledged, each with its sampled value, except suppressed frame
   * periods.
   */
  lemma CommandMeans(st: Store, io: Samples, canEnable: bool, deviceReset: bool, t: Target, a: Action)
    requires UsableInterface(t.interfaceId)
    ensures Does(CommandPackets(st, io, canEnable, deviceReset, t), t, a) <==>
            CommandAction(st, io, canEnable, deviceReset, a)
  {
    hide Does, CommandPackets, CommandStore, Flatten, PowerPhase, CurrentPhase, CacheOf, SampledCode, Suppressed, Scales,
         SharedPower;
    WritesDo(st, io, canEnable, deviceReset, t, a);
    CommandsInParts(st, io, canEnable, deviceReset, t, a);
    PowersDo(io, st.lastBattery, t, a);
    CurrentsDo(t, a);
  }

  /** With the battery reading still zero no motor is given any power, whatever its mode. */
  lemma NoBatteryNoPower(io: Samples, i: MotorIndex, level: int)
    ensures SharedPower(io, 0.0, i) == 0.0
    ensures Scales(level, SharedPower(io, 0.0, i)) <==> level == 0
  {
  }

  // ---- In what order ----

  /** The packets' places, by their numbers, rise from low and stay below high. */
  predicate Ascends(ps: seq<Packet>, place: int -> int, low: int, high: int) {
    && (forall i :: 0 <= i < |ps| ==> low <= place(ps[i].number as int) < high)
    && forall i, j :: 0 <= i < j < |ps| ==> place(ps[i].number as int) < place(ps[j].number as int)
  }

  lemma JoinAscends(a: seq<Packet>, b: seq<Packet>, place: int -> int, low: int, middle: int, high: int)
    requires Ascends(a, place, low, middle) && Ascends(b, place, middle, high) && low <= middle <= high
    ensures Ascends(a + b, place, low, high)
  {
  }

  lemma {:induction false} PhaseAscends(xs: seq<seq<Packet>>, base: int, place: int -> int, low: int)
    requires NumberedFrom(xs, base) && forall n :: base <= n < base + |xs| ==> place(n) == low + n - base
    ensures Ascends(Flatten(xs), place, low, low + |xs|)
  {
    if xs != [] {
      var n := |xs| - 1;
      assert forall i :: 0 <= i < n ==> xs[..n][i] == xs[i];
      PhaseAscends(xs[..n], base, place, low);
      var front := Flatten(xs[..n]);
      assert xs[n] != [] ==> xs[n][0].number as int == base + n;
      assert Ascends(xs[n], place, low + n, low + n + 1);
      JoinAscends(front, xs[n], place, low, low + n, low + n + 1);
    }
  }

  /** Keep-alive, status, encoder resets by motor, battery, bulk inputs, pulse widths by servo. */
  function OpeningPlace(number: int): int {
    if number == 43 then 0
    else if number == 42 then 1
    else if 25 <= number < 29 then 2 + number - 25
    else if number == 44 then 6
    else if number == 41 then 7
    else 8 + number - 15
  }

  /** Powers, currents, modes and enables by motor, then periods and enables by servo. */
  function CommandPlace(number: int): int {
    if 33 <= number < 41 then number - 33
    else if 29 <= number < 33 then 8 + number - 29
    else if 21 <= number < 25 then 12 + number - 21
    else if 9 <= number < 15 then 16 + number - 9
    else 22 + number - 3
  }

  lemma OpeningOrder(st: Store, io: Samples, t: Target)
    ensures Ascends(InitialPackets(st, io, t), OpeningPlace, 0, 14)
  {
    hide Flatten;
    var resets, pulses := ResetPhase(InitialStore(st, io), t), PulsePhase(io, t);
    PhaseAscends(resets, 25, OpeningPlace, 2);
    PhaseAscends(pulses, 15, OpeningPlace, 8);
    var a, c := [KeepAlive(t), ModuleStatus(t)], [BatteryRequest(t), BulkInput(t)];
    JoinAscends(a, Flatten(resets), OpeningPlace, 0, 2, 6);
    JoinAscends(a + Flatten(resets), c, OpeningPlace, 0, 6, 8);
    JoinAscends(a + Flatten(resets) + c, Flatten(pulses), OpeningPlace, 0, 8, 14);
  }

  lemma MotorsAscend(base: Store, io: Samples, battery: real, canEnable: bool, t: Target)
    ensures Ascends(Flatten(PowerPhase(io, battery, t)), CommandPlace, 0, 4)
    ensures Ascends(Flatten(CurrentPhase(t)), CommandPlace, 4, 8)
    ensures Ascends(Flatten(ModePhase(base, io, t)), CommandPlace, 8, 12)
    ensures Ascends(Flatten(EnablePhase(base, io, canEnable, t)), CommandPlace, 12, 16)
  {
    hide Flatten, Ascends, SentPower, MotorPowers, PowerLevel;
    PhaseAscends(PowerPhase(io, battery, t), 33, CommandPlace, 0);
    PhaseAscends(CurrentPhase(t), 37, CommandPlace, 4);
    PhaseAscends(ModePhase(base, io, t), 29, CommandPlace, 8);
    PhaseAscends(EnablePhase(base, io, canEnable, t), 21, CommandPlace, 12);
  }

  lemma ServosAscend(base: Store, io: Samples, canEnable: bool, t: Target)
    ensures Ascends(Flatten(PeriodPhase(base, io, t)), CommandPlace, 16, 22)
    ensures Ascends(Flatten(ServoOnPhase(base, io, canEnable, t)), CommandPlace, 22, 28)
  {
    hide Flatten, Ascends;
    PhaseAscends(PeriodPhase(base, io, t), 9, CommandPlace, 16);
    PhaseAscends(ServoOnPhase(base, io, canEnable, t), 3, CommandPlace, 22);
  }

  lemma CommandOrder(st: Store, io: Samples, canEnable: bool, deviceReset: bool, t: Target)
    ensures Ascends(CommandPackets(st, io, canEnable, deviceReset, t), CommandPlace, 0, 28)
  {
    hide Ascends, Flatten, PowerPhase, CurrentPhase, ModePhase, EnablePhase, PeriodPhase, ServoOnPhase;
    var base := CommandBase(st, deviceReset);
    var p, q := Flatten(PowerPhase(io, st.lastBattery, t)), Flatten(CurrentPhase(t));
    var b, c := Flatten(ModePhase(base, io, t)), Flatten(EnablePhase(base, io, canEnable, t));
    var d, e := Flatten(PeriodPhase(base, io, t)), Flatten(ServoOnPhase(base, io, canEnable, t));
    MotorsAscend(base, io, st.lastBattery, canEnable, t);
    ServosAscend(base, io, canEnable, t);
    JoinAscends(p, q, CommandPlace, 0, 4, 8);
    JoinAscends(p + q, b, CommandPlace, 0, 8, 12);
    JoinAscends(p + q + b, c, CommandPlace, 0, 12, 16);
    JoinAscends(p + q + b + c, d, CommandPlace, 0, 16, 22);
    JoinAscends(p + q + b + c + d, e, CommandPlace, 0, 22, 28);
  }
}
