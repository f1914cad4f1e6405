/** Per-motor and per-servo state, and the packet batches one transaction builds from it. */
module Stores {
  import opened Bytes
  import opened Caches
  import opened Frames
  import opened Messages
  import opened Wrappers

  type int64 = x: int | -0x8000_0000_0000_0000 <= x < 0x8000_0000_0000_0000

  // ---- What the subscribers hold at one moment ----

  /** `positionPid` and `velocityPid` are what the controllers would compute for the setpoint. */
  datatype MotorSample = MotorSample(
    enabled: bool, floatOn0: bool, mode: int64, setpoint: real, reversed: bool,
    distancePerCount: real, resetTime: int64, positionPid: real, velocityPid: real)

  datatype ServoSample = ServoSample(enabled: bool, pulseWidth: int64, framePeriod: int64)

  datatype SampleData = SampleData(motors: seq<MotorSample>, servos: seq<ServoSample>)

  const IDLE_MOTOR := MotorSample(false, false, 0, 0.0, false, 0.0, 0, 0.0, 0.0)
  const IDLE_SERVO := ServoSample(false, 1500, 20000)

  type Samples = s: SampleData | |s.motors| == NUM_MOTORS && |s.servos| == NUM_SERVOS
    witness SampleData([IDLE_MOTOR, IDLE_MOTOR, IDLE_MOTOR, IDLE_MOTOR],
                       [IDLE_SERVO, IDLE_SERVO, IDLE_SERVO, IDLE_SERVO, IDLE_SERVO, IDLE_SERVO])

  // ---- State kept between transactions ----

  datatype Motor = Motor(
    enabled: Cache<bool>, floatOn0: Cache<bool>, doReset: bool, lastResetTime: int64,
    position: real, velocity: real)

  datatype Servo = Servo(enabled: Cache<bool>, framePeriod: Cache<int64>)

  datatype StoreData = StoreData(
    motors: seq<Motor>, servos: seq<Servo>, lastBattery: real,
    numNacks: nat, numCrcFailures: nat, numMissedSendLoops: nat)

  const NEW_MOTOR := Motor(Cache(None, false), Cache(None, false), false, 0, 0.0, 0.0)
  const NEW_SERVO := Servo(Cache(None, false), Cache(None, 0))

  type Store = s: StoreData | |s.motors| == NUM_MOTORS && |s.servos| == NUM_SERVOS
    witness StoreData([NEW_MOTOR, NEW_MOTOR, NEW_MOTOR, NEW_MOTOR],
                      [NEW_SERVO, NEW_SERVO, NEW_SERVO, NEW_SERVO, NEW_SERVO, NEW_SERVO], 0.0, 0, 0, 0)

  const NEW_STORE: Store :=
    StoreData([NEW_MOTOR, NEW_MOTOR, NEW_MOTOR, NEW_MOTOR],
              [NEW_SERVO, NEW_SERVO, NEW_SERVO, NEW_SERVO, NEW_SERVO, NEW_SERVO], 0.0, 0, 0, 0)

  function ForgottenMotor(m: Motor): Motor {
    m.(enabled := Forgotten(m.enabled), floatOn0 := Forgotten(m.floatOn0))
  }

  function ForgottenServo(s: Servo): Servo {
    s.(enabled := Forgotten(s.enabled), framePeriod := Forgotten(s.framePeriod))
  }

  /** Forgets every acknowledged value. */
  function ForgetAll(st: Store): Store {
    st.(motors := seq(NUM_MOTORS, i requires 0 <= i < NUM_MOTORS => ForgottenMotor(st.motors[i])),
        servos := seq(NUM_SERVOS, i requires 0 <= i < NUM_SERVOS => ForgottenServo(st.servos[i])))
  }

  /** The store a new device finds: nothing acknowledged, nothing counted. */
  function Afresh(st: Store): Store {
    ForgetAll(st).(numNacks := 0, numCrcFailures := 0, numMissedSendLoops := 0)
  }

  /** What a reply to a register's command does to its cache. */
  function Acknowledge(st: Store, r: Register): Store {
    match r
    case Enable(i) => st.(motors := st.motors[i := st.motors[i].(enabled := Confirmed(st.motors[i].enabled))])
    case FloatMode(i) => st.(motors := st.motors[i := st.motors[i].(floatOn0 := Confirmed(st.motors[i].floatOn0))])
    case ServoOn(i) => st.(servos := st.servos[i := st.servos[i].(enabled := Confirmed(st.servos[i].enabled))])
    case Period(i) => st.(servos := st.servos[i := st.servos[i].(framePeriod := Confirmed(st.servos[i].framePeriod))])
  }

  // ---- One view of all twenty caches ----

  /** A cached value as the register would hold it; a frame period is cast to uint16_t on its way out. */
  function FlagCode(c: Cache<bool>): Cache<int> {
    Cache(if c.lastAcked.Some? then Some(Flag(c.lastAcked.value)) else None, Flag(c.lastAttempted))
  }

  function PeriodCode(c: Cache<int64>): Cache<int> {
    Cache(if c.lastAcked.Some? then Some(c.lastAcked.value % 0x1_0000) else None, c.lastAttempted % 0x1_0000)
  }

  function CacheOf(st: Store, r: Register): Cache<int> {
    match r
    case Enable(i) => FlagCode(st.motors[i].enabled)
    case FloatMode(i) => FlagCode(st.motors[i].floatOn0)
    case ServoOn(i) => FlagCode(st.servos[i].enabled)
    case Period(i) => PeriodCode(st.servos[i].framePeriod)
  }

  /** The register value the subscribers ask for; the enables are gated. */
  function SampledCode(io: Samples, canEnable: bool, r: Register): int {
    match r
    case Enable(i) => Flag(canEnable && io.motors[i].enabled)
    case FloatMode(i) => Flag(io.motors[i].floatOn0)
    case ServoOn(i) => Flag(canEnable && io.servos[i].enabled)
    case Period(i) => io.servos[i].framePeriod % 0x1_0000
  }

  /** A frame period of 0 or 1 never reaches the wire. */
  predicate Suppressed(r: Register, code: int) {
    r.Period? && code <= 1
  }

  predicate IsEnable(r: Register) {
    r.Enable? || r.ServoOn?
  }

  lemma ForgetAllForgets(st: Store, r: Register)
    ensures CacheOf(ForgetAll(st), r) == Cache(None, CacheOf(st, r).lastAttempted)
  {
  }

  lemma AcknowledgeIsLocal(st: Store, r: Register, q: Register)
    ensures CacheOf(Acknowledge(st, r), q) == if q == r then Confirmed(CacheOf(st, q)) else CacheOf(st, q)
  {
  }

  // ---- Motor power ----

  const VOLTAGE_MODE := 1
  const POSITION_PID_MODE := 2
  const VELOCITY_PID_MODE := 3
  const FOLLOWER_MODE := 4

  function Sign(reversed: bool): real {
    if reversed then -1.0 else 1.0
  }

  /** A power and the motor to follow, or -1 for none. */
  function ComputeMotorPower(s: MotorSample, batteryVoltage: real): (real, int) {
    if batteryVoltage == 0.0 then (0.0, -1)
    else if s.mode == VOLTAGE_MODE then (s.setpoint / batteryVoltage * Sign(s.reversed), -1)
    else if s.mode == POSITION_PID_MODE then (s.positionPid / batteryVoltage * Sign(s.reversed), -1)
    else if s.mode == VELOCITY_PID_MODE then (s.velocityPid / batteryVoltage * Sign(s.reversed), -1)
    else if s.mode == FOLLOWER_MODE then (0.0, Truncate(s.setpoint))
    else (s.setpoint * Sign(s.reversed), -1)
  }

  function MotorPowers(io: Samples, battery: real): (ps: seq<(real, int)>)
    ensures |ps| == NUM_MOTORS
  {
    seq(NUM_MOTORS, i requires 0 <= i < NUM_MOTORS => ComputeMotorPower(io.motors[i], battery))
  }

  /** The power motor i is sent: its own, its leader's, or zero when the leader does not exist. */
  function SentPower(powers: seq<(real, int)>, i: MotorIndex): real
    requires |powers| == NUM_MOTORS
  {
    if powers[i].1 < 0 then powers[i].0
    else if powers[i].1 < NUM_MOTORS then powers[powers[i].1].0
    else 0.0
  }

  /** The motor a sample follows, if it is in follower mode. */
  function Leader(s: MotorSample): Option<int> {
    if s.mode == FOLLOWER_MODE then Some(Truncate(s.setpoint)) else None
  }

  /**
   * What following means: a follower gets the power of the motor it names, zero when that motor is itself a
   * follower, names no motor, or the battery reading is still zero; every other motor gets its own power.
   */
  lemma FollowerPower(io: Samples, battery: real, i: MotorIndex)
    ensures var power := SentPower(MotorPowers(io, battery), i);
            match Leader(io.motors[i])
            case None => power == ComputeMotorPower(io.motors[i], battery).0
            case Some(j) =>
              if battery != 0.0 && 0 <= j < NUM_MOTORS && Leader(io.motors[j]).None?
              then power == ComputeMotorPower(io.motors[j], battery).0
              else power == 0.0
  {
  }

  // ---- Encoders ----

  function ScaledEncoder(m: Motor, s: MotorSample, positionRaw: int, velocityRaw: int): Motor {
    var distance := if s.distancePerCount == 0.0 then 1.0 else s.distancePerCount;
    m.(position := positionRaw as real * Sign(s.reversed) * distance,
       velocity := velocityRaw as real * Sign(s.reversed) * distance)
  }

  /** Notes a new reset request; the request stays until its reply. */
  function ObserveReset(m: Motor, s: MotorSample): Motor {
    if s.resetTime != m.lastResetTime then m.(lastResetTime := s.resetTime, doReset := true) else m
  }

  // ---- The opening batch of a transaction ----

  function InitialStore(st: Store, io: Samples): Store {
    st.(motors := seq(NUM_MOTORS, i requires 0 <= i < NUM_MOTORS => ObserveReset(st.motors[i], io.motors[i])))
  }

  /** For the store after the requests were observed. */
  function ResetPhase(st: Store, t: Target): (xs: seq<seq<Packet>>)
    ensures |xs| == NUM_MOTORS
  {
    seq(NUM_MOTORS, i requires 0 <= i < NUM_MOTORS => if st.motors[i].doReset then [EncoderReset(t, i)] else [])
  }

  function PulsePhase(io: Samples, t: Target): (xs: seq<seq<Packet>>)
    ensures |xs| == NUM_SERVOS
  {
    seq(NUM_SERVOS, i requires 0 <= i < NUM_SERVOS => ServoPulseWidth(t, i, io.servos[i].pulseWidth % 0x1_0000))
  }

  function InitialPackets(st: Store, io: Samples, t: Target): seq<Packet> {
    [KeepAlive(t), ModuleStatus(t)] + Flatten(ResetPhase(InitialStore(st, io), t)) +
    [BatteryRequest(t), BulkInput(t)] + Flatten(PulsePhase(io, t))
  }

  // ---- The command batch of a transaction ----

  function PowerPhase(io: Samples, battery: real, t: Target): (xs: seq<seq<Packet>>)
    ensures |xs| == NUM_MOTORS
  {
    seq(NUM_MOTORS, i requires 0 <= i < NUM_MOTORS =>
      [MotorConstantPower(t, i, SentPower(MotorPowers(io, battery), i))])
  }

  function CurrentPhase(t: Target): (xs: seq<seq<Packet>>)
    ensures |xs| == NUM_MOTORS
  {
    seq(NUM_MOTORS, i requires 0 <= i < NUM_MOTORS => [MotorCurrentRequest(t, i)])
  }

  function ModePhase(st: Store, io: Samples, t: Target): (xs: seq<seq<Packet>>)
    ensures |xs| == NUM_MOTORS
  {
    seq(NUM_MOTORS, i requires 0 <= i < NUM_MOTORS =>
      match Wanted(st.motors[i].floatOn0, io.motors[i].floatOn0)
      case Some(v) => [MotorMode(t, i, v)]
      case None => [])
  }

  function EnablePhase(st: Store, io: Samples, canEnable: bool, t: Target): (xs: seq<seq<Packet>>)
    ensures |xs| == NUM_MOTORS
  {
    seq(NUM_MOTORS, i requires 0 <= i < NUM_MOTORS =>
      match Wanted(st.motors[i].enabled, canEnable && io.motors[i].enabled)
      case Some(v) => [MotorEnable(t, i, v)]
      case None => [])
  }

  function PeriodPhase(st: Store, io: Samples, t: Target): (xs: seq<seq<Packet>>)
    ensures |xs| == NUM_SERVOS
  {
    seq(NUM_SERVOS, i requires 0 <= i < NUM_SERVOS =>
      match Wanted(st.servos[i].framePeriod, io.servos[i].framePeriod)
      case Some(v) => ServoConfiguration(t, i, v % 0x1_0000)
      case None => [])
  }

  function ServoOnPhase(st: Store, io: Samples, canEnable: bool, t: Target): (xs: seq<seq<Packet>>)
    ensures |xs| == NUM_SERVOS
  {
    seq(NUM_SERVOS, i requires 0 <= i < NUM_SERVOS =>
      match Wanted(st.servos[i].enabled, canEnable && io.servos[i].enabled)
      case Some(v) => [ServoEnable(t, i, v)]
      case None => [])
  }

  /** The store the batch works from. */
  function CommandBase(st: Store, deviceReset: bool): Store {
    if deviceReset then ForgetAll(st) else st
  }

  function CommandPackets(st: Store, io: Samples, canEnable: bool, deviceReset: bool, t: Target): seq<Packet> {
    var base := CommandBase(st, deviceReset);
    Flatten(PowerPhase(io, st.lastBattery, t)) + Flatten(CurrentPhase(t)) +
    Flatten(ModePhase(base, io, t)) + Flatten(EnablePhase(base, io, canEnable, t)) +
    Flatten(PeriodPhase(base, io, t)) + Flatten(ServoOnPhase(base, io, canEnable, t))
  }

  function AttemptAll(st: Store, io: Samples, canEnable: bool): Store {
    st.(motors := seq(NUM_MOTORS, i requires 0 <= i < NUM_MOTORS =>
          st.motors[i].(floatOn0 := Attempt(st.motors[i].floatOn0, io.motors[i].floatOn0),
                        enabled := Attempt(st.motors[i].enabled, canEnable && io.motors[i].enabled))),
        servos := seq(NUM_SERVOS, i requires 0 <= i < NUM_SERVOS =>
          st.servos[i].(framePeriod := Attempt(st.servos[i].framePeriod, io.servos[i].framePeriod),
                        enabled := Attempt(st.servos[i].enabled, canEnable && io.servos[i].enabled))))
  }

  function CommandStore(st: Store, io: Samples, canEnable: bool, deviceReset: bool): Store {
    AttemptAll(CommandBase(st, deviceReset), io, canEnable)
  }

  // ---- What the two batches contain ----

  predicate NumberedFrom(xs: seq<seq<Packet>>, base: int) {
    forall i :: 0 <= i < |xs| ==> |xs[i]| <= 1 && (xs[i] != [] ==> xs[i][0].number == base + i)
  }

  predicate Distinct(ps: seq<Packet>) {
    forall i, j :: 0 <= i < j < |ps| ==> ps[i].number != ps[j].number
  }

  predicate Within(ps: seq<Packet>, low: int, high: int) {
    forall i :: 0 <= i < |ps| ==> low <= ps[i].number < high
  }

  lemma {:induction false} PhaseNumbers(xs: seq<seq<Packet>>, base: int)
    requires NumberedFrom(xs, base)
    ensures Distinct(Flatten(xs)) && Within(Flatten(xs), base, base + |xs|)
    ensures |Flatten(xs)| <= |xs|
  {
    if xs != [] {
      var front := xs[..|xs| - 1];
      assert forall i :: 0 <= i < |front| ==> front[i] == xs[i];
      PhaseNumbers(front, base);
    }
  }

  /** Whether the batch holds a packet with this number. */
  predicate Holds(ps: seq<Packet>, n: int) {
    exists i :: 0 <= i < |ps| && ps[i].number == n
  }

  predicate AllUnderstood(ps: seq<Packet>, hub: Target) {
    forall i :: 0 <= i < |ps| ==> Understood(hub, ps[i])
  }

  /** The hub understands the packet, and what it writes for it is the value the cache has on attempt. */
  predicate GoodPacket(p: Packet, hub: Target, st: Store) {
    && Understood(hub, p)
    && match Interpret(hub, p)
       case Write(r, v) => CacheOf(st, r) == Cache(None, v)
       case _ => true
  }

  lemma PhaseElements(xs: seq<seq<Packet>>, base: int, k: int)
    requires NumberedFrom(xs, base)
    requires 0 <= k < |Flatten(xs)|
    ensures var i := Flatten(xs)[k].number - base; 0 <= i < |xs| && xs[i] == [Flatten(xs)[k]]
  {
    var p := Flatten(xs)[k];
    FlattenMember(xs, p);
    var i :| 0 <= i < |xs| && p in xs[i];
    assert xs[i] == [p];
  }

  lemma PhaseHolds(xs: seq<seq<Packet>>, base: int, i: int)
    requires NumberedFrom(xs, base)
    requires 0 <= i < |xs|
    ensures Holds(Flatten(xs), base + i) <==> xs[i] != []
  {
    hide Flatten;
    if xs[i] != [] {
      FlattenMember(xs, xs[i][0]);
    }
    if k :| 0 <= k < |Flatten(xs)| && Flatten(xs)[k].number == base + i {
      PhaseElements(xs, base, k);
    }
  }
}
