/** The objects the daemon keeps per motor, per servo and per hub, each shown as the value the specification uses. */
module NtState {
  import opened Bytes
  import opened Caches
  import opened Messages
  import opened Phases
  import opened Protocol
  import opened Stores
  import opened Wrappers

  class MotorNtState {
    const enabledSubscriber: CachedCommand<bool>
    const floatOn0Subscriber: CachedCommand<bool>
    var doReset: bool
    var lastResetTime: int64
    var lastEncoderPosition: real
    var lastEncoderVelocity: real

    ghost predicate Valid() {
      enabledSubscriber != floatOn0Subscriber
    }

    ghost function Repr(): (r: set<object>)
      ensures this in r && enabledSubscriber in r && floatOn0Subscriber in r
    {
      {this, enabledSubscriber, floatOn0Subscriber}
    }

    ghost function Model(): Motor
      reads Repr()
    {
      Motor(enabledSubscriber.Model(), floatOn0Subscriber.Model(), doReset, lastResetTime,
            lastEncoderPosition, lastEncoderVelocity)
    }

    constructor ()
      ensures Valid() && fresh(Repr())
      ensures Model() == NEW_MOTOR
    {
      enabledSubscriber := new CachedCommand(false);
      floatOn0Subscriber := new CachedCommand(false);
      doReset, lastResetTime := false, 0;
      lastEncoderPosition, lastEncoderVelocity := 0.0, 0.0;
    }

    method SetEncoder(positionRaw: int, velocityRaw: int, s: MotorSample)
      modifies this`lastEncoderPosition, this`lastEncoderVelocity
      ensures Model() == ScaledEncoder(old(Model()), s, positionRaw, velocityRaw)
    {
      var reversed := if s.reversed then -1.0 else 1.0;
      var distancePerCount := s.distancePerCount;
      if distancePerCount == 0.0 {
        distancePerCount := 1.0;
      }
      lastEncoderPosition := positionRaw as real * reversed * distancePerCount;
      lastEncoderVelocity := velocityRaw as real * reversed * distancePerCount;
    }

    /** The encoder readings enter through what the controllers compute from them, which the sample supplies. */
    method ComputeMotorPower(batteryVoltage: real, s: MotorSample) returns (power: real, leader: int)
      ensures (power, leader) == Stores.ComputeMotorPower(s, batteryVoltage)
    {
      var reversed := if s.reversed then -1.0 else 1.0;
      if batteryVoltage == 0.0 {
        return 0.0, -1;
      }
      match s.mode
      case 1 => return (s.setpoint / batteryVoltage) * reversed, -1;
      case 2 => return (s.positionPid / batteryVoltage) * reversed, -1;
      case 3 => return (s.velocityPid / batteryVoltage) * reversed, -1;
      case 4 => return 0.0, Truncate(s.setpoint);
      case _ => return s.setpoint * reversed, -1;
    }

    method ForceReset()
      requires Valid()
      modifies enabledSubscriber, floatOn0Subscriber
      ensures Model() == ForgottenMotor(old(Model()))
    {
      enabledSubscriber.ForceReset();
      floatOn0Subscriber.ForceReset();
    }

    /** The part of `SendInitial` that looks for a new reset request. */
    method CheckReset(s: MotorSample)
      modifies this`doReset, this`lastResetTime
      ensures Model() == ObserveReset(old(Model()), s)
    {
      if s.resetTime != lastResetTime {
        lastResetTime := s.resetTime;
        doReset := true;
      }
    }
  }

  class ServoNtState {
    const enabledSubscriber: CachedCommand<bool>
    const framePeriodSubscriber: CachedCommand<int64>

    ghost function Repr(): (r: set<object>)
      ensures this in r && enabledSubscriber in r && framePeriodSubscriber in r
    {
      {this, enabledSubscriber, framePeriodSubscriber}
    }

    ghost function Model(): Servo
      reads Repr()
    {
      Servo(enabledSubscriber.Model(), framePeriodSubscriber.Model())
    }

    constructor ()
      ensures fresh(Repr())
      ensures Model() == NEW_SERVO
    {
      enabledSubscriber := new CachedCommand(false);
      framePeriodSubscriber := new CachedCommand(0);
    }

    method ForceReset()
      modifies enabledSubscriber, framePeriodSubscriber
      ensures Model() == ForgottenServo(old(Model()))
    {
      enabledSubscriber.ForceReset();
      framePeriodSubscriber.ForceReset();
    }
  }

  class ExpansionHubNtState {
    const motors: seq<MotorNtState>
    const servos: seq<ServoNtState>
    var lastBattery: real
    var numNacks: nat
    var numCrcFailures: nat
    var numMissedSendLoops: nat

    ghost const Repr: set<object>

    /** The motors and servos are embedded objects: no two of them share a cache. */
    ghost predicate Valid()
      ensures Valid() ==> |motors| == NUM_MOTORS && |servos| == NUM_SERVOS
    {
      && |motors| == NUM_MOTORS && |servos| == NUM_SERVOS
      && this in Repr
      && (forall i :: 0 <= i < NUM_MOTORS ==> motors[i].Repr() <= Repr)
      && (forall i :: 0 <= i < NUM_SERVOS ==> servos[i].Repr() <= Repr)
      && (forall i, j :: 0 <= i < NUM_MOTORS && 0 <= j < NUM_MOTORS ==>
            motors[i].enabledSubscriber != motors[j].floatOn0Subscriber)
      && (forall i, j :: 0 <= i < j < NUM_MOTORS ==>
            && motors[i] != motors[j]
            && motors[i].enabledSubscriber != motors[j].enabledSubscriber
            && motors[i].floatOn0Subscriber != motors[j].floatOn0Subscriber)
      && (forall i, j :: 0 <= i < j < NUM_SERVOS ==>
            && servos[i] != servos[j]
            && servos[i].enabledSubscriber != servos[j].enabledSubscriber
            && servos[i].framePeriodSubscriber != servos[j].framePeriodSubscriber)
      && (forall i, j :: 0 <= i < NUM_MOTORS && 0 <= j < NUM_SERVOS ==>
            && motors[i].enabledSubscriber != servos[j].enabledSubscriber
            && motors[i].floatOn0Subscriber != servos[j].enabledSubscriber)
    }

    ghost function Model(): (st: Store)
      requires Valid()
      reads Repr
    {
      StoreData([motors[0].Model(), motors[1].Model(), motors[2].Model(), motors[3].Model()],
                [servos[0].Model(), servos[1].Model(), servos[2].Model(),
                 servos[3].Model(), servos[4].Model(), servos[5].Model()],
                lastBattery, numNacks, numCrcFailures, numMissedSendLoops)
    }

    static method NewMotors() returns (ms: seq<MotorNtState>, ghost footprint: set<object>)
      ensures |ms| == NUM_MOTORS && fresh(footprint)
      ensures forall i :: 0 <= i < |ms| ==> ms[i].Repr() <= footprint && ms[i].Model() == NEW_MOTOR && ms[i].Valid()
      ensures forall i, j :: 0 <= i < j < |ms| ==> ms[i].Repr() !! ms[j].Repr()
    {
      ms, footprint := [], {};
      for n := 0 to NUM_MOTORS
        invariant |ms| == n && fresh(footprint)
        invariant forall i :: 0 <= i < n ==> ms[i].Repr() <= footprint && ms[i].Model() == NEW_MOTOR && ms[i].Valid()
        invariant forall i, j :: 0 <= i < j < n ==> ms[i].Repr() !! ms[j].Repr()
      {
        var m := new MotorNtState();
        ms, footprint := ms + [m], footprint + m.Repr();
      }
    }

    static method NewServos() returns (ss: seq<ServoNtState>, ghost footprint: set<object>)
      ensures |ss| == NUM_SERVOS && fresh(footprint)
      ensures forall i :: 0 <= i < |ss| ==> ss[i].Repr() <= footprint && ss[i].Model() == NEW_SERVO
      ensures forall i, j :: 0 <= i < j < |ss| ==> ss[i].Repr() !! ss[j].Repr()
    {
      ss, footprint := [], {};
      for n := 0 to NUM_SERVOS
        invariant |ss| == n && fresh(footprint)
        invariant forall i :: 0 <= i < n ==> ss[i].Repr() <= footprint && ss[i].Model() == NEW_SERVO
        invariant forall i, j :: 0 <= i < j < n ==> ss[i].Repr() !! ss[j].Repr()
      {
        var s := new ServoNtState();
        ss, footprint := ss + [s], footprint + s.Repr();
      }
    }

    /** Embeds four motors and six servos that share nothing. */
    constructor (ms: seq<MotorNtState>, ghost motorParts: set<object>, ss: seq<ServoNtState>, ghost servoParts: set<object>)
      requires |ms| == NUM_MOTORS && |ss| == NUM_SERVOS && motorParts !! servoParts
      requires forall i :: 0 <= i < |ms| ==> ms[i].Repr() <= motorParts && ms[i].Valid()
      requires forall i, j :: 0 <= i < j < |ms| ==> ms[i].Repr() !! ms[j].Repr()
      requires forall i :: 0 <= i < |ss| ==> ss[i].Repr() <= servoParts
      requires forall i, j :: 0 <= i < j < |ss| ==> ss[i].Repr() !! ss[j].Repr()
      ensures Valid() && Repr == {this} + motorParts + servoParts
      ensures motors == ms && servos == ss && lastBattery == 0.0
      ensures numNacks == numCrcFailures == numMissedSendLoops == 0
    {
      motors := ms;
      servos := ss;
      Repr := {this} + motorParts + servoParts;
      lastBattery := 0.0;
      numNacks, numCrcFailures, numMissedSendLoops := 0, 0, 0;
    }

    static method Create() returns (s: ExpansionHubNtState)
      ensures s.Valid() && fresh(s.Repr) && s.Model() == NEW_STORE
    {
      var ms, motorParts := NewMotors();
      var ss, servoParts := NewServos();
      s := new ExpansionHubNtState(ms, motorParts, ss, servoParts);
      hide MotorNtState.Model, ServoNtState.Model, MotorNtState.Repr, ServoNtState.Repr;
    }

    // ---- Acknowledgements ----

    method AckMotorEnable(i: MotorIndex)
      requires Valid()
      modifies Repr
      ensures Model() == Acknowledge(old(Model()), Enable(i))
    {
      motors[i].enabledSubscriber.Ack();
    }

    method AckFloatOn0(i: MotorIndex)
      requires Valid()
      modifies Repr
      ensures Model() == Acknowledge(old(Model()), FloatMode(i))
    {
      motors[i].floatOn0Subscriber.Ack();
    }

    method AckServoEnable(i: ServoIndex)
      requires Valid()
      modifies Repr
      ensures Model() == Acknowledge(old(Model()), ServoOn(i))
    {
      servos[i].enabledSubscriber.Ack();
    }

    method AckFramePeriod(i: ServoIndex)
      requires Valid()
      modifies Repr
      ensures Model() == Acknowledge(old(Model()), Period(i))
    {
      servos[i].framePeriodSubscriber.Ack();
    }

    // ---- Commands ----

    method GetFloatOn0(i: MotorIndex, current: bool) returns (command: Option<bool>)
      requires Valid()
      modifies Repr
      ensures command == Wanted(old(Model()).motors[i].floatOn0, current)
      ensures Model() == ModeAttempted(old(Model()), i, current)
    {
      hide Wanted, Attempt;
      command := motors[i].floatOn0Subscriber.Get(current);
    }

    method GetMotorEnable(i: MotorIndex, canEnable: bool, current: bool) returns (command: Option<bool>)
      requires Valid()
      modifies Repr
      ensures command == Wanted(old(Model()).motors[i].enabled, canEnable && current)
      ensures Model() == EnableAttempted(old(Model()), i, canEnable && current)
    {
      hide Wanted, Attempt;
      command := motors[i].enabledSubscriber.GetWithCanEnable(canEnable, current, false);
    }

    method GetFramePeriod(i: ServoIndex, current: int64) returns (command: Option<int64>)
      requires Valid()
      modifies Repr
      ensures command == Wanted(old(Model()).servos[i].framePeriod, current)
      ensures Model() == PeriodAttempted(old(Model()), i, current)
    {
      hide Wanted, Attempt;
      command := servos[i].framePeriodSubscriber.Get(current);
    }

    method GetServoEnable(i: ServoIndex, canEnable: bool, current: bool) returns (command: Option<bool>)
      requires Valid()
      modifies Repr
      ensures command == Wanted(old(Model()).servos[i].enabled, canEnable && current)
      ensures Model() == ServoOnAttempted(old(Model()), i, canEnable && current)
    {
      hide Wanted, Attempt;
      command := servos[i].enabledSubscriber.GetWithCanEnable(canEnable, current, false);
    }

    method ForceResetMotor(i: MotorIndex)
      requires Valid()
      modifies motors[i].enabledSubscriber, motors[i].floatOn0Subscriber
      ensures Model() == old(Model()).(motors := old(Model()).motors[i := ForgottenMotor(old(Model()).motors[i])])
    {
      hide Forgotten, ForgottenMotor;
      motors[i].ForceReset();
    }

    method ForceResetServo(i: ServoIndex)
      requires Valid()
      modifies servos[i].enabledSubscriber, servos[i].framePeriodSubscriber
      ensures Model() == old(Model()).(servos := old(Model()).servos[i := ForgottenServo(old(Model()).servos[i])])
    {
      hide Forgotten, ForgottenServo;
      servos[i].ForceReset();
    }

    method ForceResetMotors()
      requires Valid()
      modifies Repr
      ensures Model() == old(Model()).(motors := ForgetAll(old(Model())).motors)
    {
      hide Model;
      ghost var st := Model();
      for i := 0 to NUM_MOTORS
        invariant Model() == st.(motors := Model().motors)
        invariant forall j: MotorIndex :: Model().motors[j] == if j < i then ForgottenMotor(st.motors[j]) else st.motors[j]
      {
        ForceResetMotor(i);
      }
    }

    method ForceResetServos()
      requires Valid()
      modifies Repr
      ensures Model() == old(Model()).(servos := ForgetAll(old(Model())).servos)
    {
      hide Model;
      ghost var st := Model();
      for i := 0 to NUM_SERVOS
        invariant Model() == st.(servos := Model().servos)
        invariant forall j: ServoIndex :: Model().servos[j] == if j < i then ForgottenServo(st.servos[j]) else st.servos[j]
      {
        ForceResetServo(i);
      }
    }

    /** The reset of all caches that a device reset and a new device share. */
    method ForceResetAll()
      requires Valid()
      modifies Repr
      ensures Model() == ForgetAll(old(Model()))
    {
      hide Model, Valid;
      ForceResetMotors();
      ForceResetServos();
    }

    // ---- Readings ----

    method ClearReset(i: MotorIndex)
      requires Valid()
      modifies Repr
      ensures Model() == old(Model()).(motors := old(Model()).motors[i := old(Model()).motors[i].(doReset := false)])
    {
      motors[i].doReset := false;
    }

    method CheckReset(i: MotorIndex, s: MotorSample) returns (wanted: bool)
      requires Valid()
      modifies Repr
      ensures Model() == ResetObserved(old(Model()), i, s) && wanted == Model().motors[i].doReset
    {
      motors[i].CheckReset(s);
      wanted := motors[i].doReset;
    }

    method SetEncoder(i: MotorIndex, positionRaw: int, velocityRaw: int, s: MotorSample)
      requires Valid()
      modifies Repr
      ensures Model() == old(Model()).(motors :=
                old(Model()).motors[i := ScaledEncoder(old(Model()).motors[i], s, positionRaw, velocityRaw)])
    {
      motors[i].SetEncoder(positionRaw, velocityRaw, s);
    }

    method SetEncoders(payload: seq<byte>, io: Samples)
      requires Valid() && |payload| >= 26
      modifies Repr
      ensures Model() == BulkEncoders(old(Model()), payload, io)
    {
      hide ScaledEncoder, ReadInt32, ReadInt16, Model;
      SetEncoder(0, ReadInt32(payload[1..]), ReadInt16(payload[18..]), io.motors[0]);
      SetEncoder(1, ReadInt32(payload[5..]), ReadInt16(payload[20..]), io.motors[1]);
      SetEncoder(2, ReadInt32(payload[9..]), ReadInt16(payload[22..]), io.motors[2]);
      SetEncoder(3, ReadInt32(payload[13..]), ReadInt16(payload[24..]), io.motors[3]);
      assert Model().motors == BulkEncoders(old(Model()), payload, io).motors;
    }

    method SetBattery(raw: int)
      requires Valid()
      modifies Repr
      ensures Model() == old(Model()).(lastBattery := raw as real / 1000.0)
    {
      hide MotorNtState.Model, ServoNtState.Model;
      lastBattery := raw as real / 1000.0;
    }

    /** The cache a reply acknowledges. */
    method Ack(r: Register)
      requires Valid()
      modifies Repr
      ensures Model() == Acknowledge(old(Model()), r)
    {
      hide Model, Valid;
      match r
      case Enable(i) => AckMotorEnable(i);
      case FloatMode(i) => AckFloatOn0(i);
      case ServoOn(i) => AckServoEnable(i);
      case Period(i) => AckFramePeriod(i);
    }

    /** What the reply to a queued frame changes here: resets, caches, encoders and the battery reading. */
    method Record(reference: byte, payload: seq<byte>, io: Samples)
      requires Valid() && Readable(NEW_LINK, Reply(reference, payload))
      modifies Repr
      ensures Model() == RecordReply(old(Model()), reference, payload, io)
    {
      hide Model, Valid, Acknowledge, BulkEncoders;
      if MESSAGE_MOTOR_RESET_ENCODER_0 <= reference < MESSAGE_MOTOR_SET_RUN_MODE_0 {
        ClearReset(reference - MESSAGE_MOTOR_RESET_ENCODER_0);
      } else if RegisterOf(reference).Some? {
        Ack(RegisterOf(reference).value);
      } else if reference == MESSAGE_BULK_INPUT {
        SetEncoders(payload, io);
      } else if reference == MESSAGE_BATTERY_VOLTAGE {
        SetBattery(ReadInt16(payload));
      }
    }

    // ---- Counters ----

    method CountNack()
      requires Valid()
      modifies Repr
      ensures Model() == old(Model()).(numNacks := old(Model()).numNacks + 1)
    {
      hide MotorNtState.Model, ServoNtState.Model;
      numNacks := numNacks + 1;
    }

    method CountCrcFailure()
      requires Valid()
      modifies Repr
      ensures Model() == old(Model()).(numCrcFailures := old(Model()).numCrcFailures + 1)
    {
      hide MotorNtState.Model, ServoNtState.Model;
      numCrcFailures := numCrcFailures + 1;
    }

    method CountMissedLoop()
      requires Valid()
      modifies Repr
      ensures Model() == old(Model()).(numMissedSendLoops := old(Model()).numMissedSendLoops + 1)
    {
      hide MotorNtState.Model, ServoNtState.Model;
      numMissedSendLoops := numMissedSendLoops + 1;
    }

    method ZeroCounters()
      requires Valid()
      modifies Repr
      ensures Model() == old(Model()).(numNacks := 0, numCrcFailures := 0, numMissedSendLoops := 0)
    {
      hide MotorNtState.Model, ServoNtState.Model;
      numNacks := 0;
      numCrcFailures := 0;
      numMissedSendLoops := 0;
    }

    /** What a new device finds: zeroed counters and caches that hold nothing. */
    method StartAfresh()
      requires Valid()
      modifies Repr
      ensures Model() == Afresh(old(Model()))
    {
      ForgettingKeepsCounters(Model());
      hide Model, Valid, ForgetAll;
      ZeroCounters();
      ForceResetAll();
    }
  }
}
