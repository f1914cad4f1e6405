/** Message numbers, the packets the daemon sends, and how the hub reads them. */
module Messages {
  import opened Bytes
  import opened Frames
  import opened Wrappers

  const NUM_MOTORS := 4
  const NUM_SERVOS := 6

  type MotorIndex = i: int | 0 <= i < NUM_MOTORS
  type ServoIndex = i: int | 0 <= i < NUM_SERVOS

  const MESSAGE_DISCOVER: byte := 0
  const MESSAGE_FTDI_RESET_CONTROL: byte := 1
  const MESSAGE_QUERY_INTERFACE: byte := 2
  const MESSAGE_SERVO_ENABLE_0: byte := 3
  const MESSAGE_SERVO_CONFIGURATION_0: byte := 9
  const MESSAGE_SERVO_PULSE_WIDTH_0: byte := 15
  const MESSAGE_MOTOR_ENABLE_0: byte := 21
  const MESSAGE_MOTOR_RESET_ENCODER_0: byte := 25
  const MESSAGE_MOTOR_SET_RUN_MODE_0: byte := 29
  const MESSAGE_MOTOR_SET_CONSTANT_POWER_0: byte := 33
  const MESSAGE_MOTOR_GET_CURRENT_0: byte := 37
  const MESSAGE_BULK_INPUT: byte := 41
  const MESSAGE_MODULE_STATUS: byte := 42
  const MESSAGE_KEEP_ALIVE: byte := 43
  const MESSAGE_BATTERY_VOLTAGE: byte := 44

  const ACK_ID: uint16 := 0x7F01
  const NACK_ID: uint16 := 0x7F02
  const MODULE_STATUS_ID: uint16 := 0x7F03
  const KEEP_ALIVE_ID: uint16 := 0x7F04
  const QUERY_INTERFACE_ID: uint16 := 0x7F07
  const DISCOVER_ID: uint16 := 0x7F0F
  const DISCOVER_ADDRESS: byte := 0xFF
  const MOTOR_0_ADC := 8
  const BATTERY_ADC: byte := 13
  const POWER_CONVERSION := 32767

  // Offsets of the command ids from the interface id the hub reports.
  const BULK_INPUT := 0
  const GET_ADC := 7
  const SET_MOTOR_MODE := 8
  const SET_MOTOR_ENABLE := 10
  const RESET_ENCODER := 14
  const SET_MOTOR_POWER := 15
  const SET_SERVO_CONFIGURATION := 31
  const SET_SERVO_PULSE_WIDTH := 33
  const SET_SERVO_ENABLE := 35
  const FTDI_RESET_CONTROL := 49

  /** The address and interface id a command is built with. */
  datatype Target = Target(address: byte, interfaceId: uint16)

  function CommandId(t: Target, offset: nat): uint16 {
    (t.interfaceId + offset) % 0x1_0000
  }

  function Flag(b: bool): byte {
    if b then 1 else 0
  }

  // ---- What the daemon sends ----

  function Discover(): Packet {
    Packet(DISCOVER_ADDRESS, MESSAGE_DISCOVER, DISCOVER_ID, [])
  }

  /** The payload is the interface name with its terminating zero. */
  function QueryInterface(address: byte): Packet {
    Packet(address, MESSAGE_QUERY_INTERFACE, QUERY_INTERFACE_ID, [0x44, 0x45, 0x4B, 0x41, 0x00])
  }

  function FtdiConfigure(t: Target): Packet {
    Packet(t.address, MESSAGE_FTDI_RESET_CONTROL, CommandId(t, FTDI_RESET_CONTROL), [1])
  }

  function BatteryRequest(t: Target): Packet {
    Packet(t.address, MESSAGE_BATTERY_VOLTAGE, CommandId(t, GET_ADC), [BATTERY_ADC, 0])
  }

  function MotorCurrentRequest(t: Target, channel: MotorIndex): Packet {
    Packet(t.address, MESSAGE_MOTOR_GET_CURRENT_0 + channel, CommandId(t, GET_ADC), [MOTOR_0_ADC + channel, 0])
  }

  function EncoderReset(t: Target, channel: MotorIndex): Packet {
    Packet(t.address, MESSAGE_MOTOR_RESET_ENCODER_0 + channel, CommandId(t, RESET_ENCODER), [channel])
  }

  /** A frame period of 0 or 1 is not sent at all. */
  function ServoConfiguration(t: Target, channel: ServoIndex, framePeriod: uint16): (ps: seq<Packet>)
    ensures |ps| <= 1
  {
    if framePeriod <= 1 then [] else
    [Packet(t.address, MESSAGE_SERVO_CONFIGURATION_0 + channel, CommandId(t, SET_SERVO_CONFIGURATION),
                [channel, LowByte(framePeriod), HighByte(framePeriod)])]
  }

  /** A pulse width of 0 is not sent at all. */
  function ServoPulseWidth(t: Target, channel: ServoIndex, pulseWidth: uint16): (ps: seq<Packet>)
    ensures |ps| <= 1
  {
    if pulseWidth == 0 then [] else
    [Packet(t.address, MESSAGE_SERVO_PULSE_WIDTH_0 + channel, CommandId(t, SET_SERVO_PULSE_WIDTH),
                [channel, LowByte(pulseWidth), HighByte(pulseWidth)])]
  }

  function ServoEnable(t: Target, channel: ServoIndex, enable: bool): Packet {
    Packet(t.address, MESSAGE_SERVO_ENABLE_0 + channel, CommandId(t, SET_SERVO_ENABLE), [channel, Flag(enable)])
  }

  function Clamp(x: real, low: real, high: real): real {
    if x < low then low else if x > high then high else x
  }

  /** The signed 16-bit level for a power: clamped to [-1, 1], scaled, truncated. */
  function PowerLevel(power: real): int {
    Truncate(Clamp(power, -1.0, 1.0) * POWER_CONVERSION as real)
  }

  function MotorConstantPower(t: Target, channel: MotorIndex, power: real): Packet {
    var level := PowerLevel(power);
    Packet(t.address, MESSAGE_MOTOR_SET_CONSTANT_POWER_0 + channel, CommandId(t, SET_MOTOR_POWER),
               [channel, LowByte(level), HighByte(level)])
  }

  function MotorMode(t: Target, channel: MotorIndex, floatOn0: bool): Packet {
    Packet(t.address, MESSAGE_MOTOR_SET_RUN_MODE_0 + channel, CommandId(t, SET_MOTOR_MODE),
               [channel, 0, Flag(floatOn0)])
  }

  function MotorEnable(t: Target, channel: MotorIndex, enable: bool): Packet {
    Packet(t.address, MESSAGE_MOTOR_ENABLE_0 + channel, CommandId(t, SET_MOTOR_ENABLE), [channel, Flag(enable)])
  }

  /** Asks for the status flags and clears them. */
  function ModuleStatus(t: Target): Packet {
    Packet(t.address, MESSAGE_MODULE_STATUS, MODULE_STATUS_ID, [1])
  }

  function KeepAlive(t: Target): Packet {
    Packet(t.address, MESSAGE_KEEP_ALIVE, KEEP_ALIVE_ID, [])
  }

  function BulkInput(t: Target): Packet {
    Packet(t.address, MESSAGE_BULK_INPUT, CommandId(t, BULK_INPUT), [])
  }

  // ---- What the hub makes of them ----

  /** The device registers whose values the daemon caches. */
  datatype Register =
    | Enable(motor: MotorIndex)
    | FloatMode(motor: MotorIndex)
    | ServoOn(servo: ServoIndex)
    | Period(servo: ServoIndex)

  datatype Action =
    | Announce
    | NameInterface
    | Configure
    | KeepAwake
    | ReadStatus(clear: bool)
    | ReadBulk
    | ReadAdc(channel: byte)
    | Write(register: Register, value: int)
    | Power(motor: MotorIndex, level: int)
    | Pulse(servo: ServoIndex, width: int)
    | ZeroEncoder(motor: MotorIndex)
    | Ignore

  /** A name as the hub compares it: its characters and a terminating zero. */
  function Terminated(name: seq<char>): seq<int> {
    seq(|name|, i requires 0 <= i < |name| => name[i] as int) + [0]
  }

  /** A hub takes frames to its own address, and discover frames to everyone. */
  function Interpret(hub: Target, p: Packet): Action {
    if p.dest == 0xFF && p.typeId == DISCOVER_ID && p.payload == [] then Announce
    else if p.dest != hub.address then Ignore
    else if p.typeId >= 0x7F00 then Shared(p.typeId, p.payload)
    else Own((p.typeId - hub.interfaceId) % 0x1_0000, p.payload)
  }

  /** The commands every module shares. */
  function Shared(typeId: uint16, d: seq<byte>): Action {
    if typeId == KEEP_ALIVE_ID && d == [] then KeepAwake
    else if typeId == MODULE_STATUS_ID && |d| == 1 then ReadStatus(d[0] == 1)
    else if typeId == QUERY_INTERFACE_ID && d == Terminated("DEKA") then NameInterface
    else Ignore
  }

  /** The hub goes by the command id and the channel in the payload, never by the message number. */
  function Own(offset: int, d: seq<byte>): Action {
    if offset == BULK_INPUT && d == [] then ReadBulk
    else if offset == GET_ADC && |d| == 2 && d[1] == 0 then ReadAdc(d[0])
    else if offset == FTDI_RESET_CONTROL && d == [1] then Configure
    else if offset == SET_MOTOR_MODE && |d| == 3 && d[0] < NUM_MOTORS && d[1] == 0 then Write(FloatMode(d[0]), d[2])
    else if offset == SET_MOTOR_ENABLE && |d| == 2 && d[0] < NUM_MOTORS then Write(Enable(d[0]), d[1])
    else if offset == RESET_ENCODER && |d| == 1 && d[0] < NUM_MOTORS then ZeroEncoder(d[0])
    else if offset == SET_MOTOR_POWER && |d| == 3 && d[0] < NUM_MOTORS then Power(d[0], ReadInt16(d[1..]))
    else if offset == SET_SERVO_CONFIGURATION && |d| == 3 && d[0] < NUM_SERVOS then Write(Period(d[0]), ReadUint16(d[1..]))
    else if offset == SET_SERVO_PULSE_WIDTH && |d| == 3 && d[0] < NUM_SERVOS then Pulse(d[0], ReadUint16(d[1..]))
    else if offset == SET_SERVO_ENABLE && |d| == 2 && d[0] < NUM_SERVOS then Write(ServoOn(d[0]), d[1])
    else Ignore
  }

  /** The message number of the command that writes a register; its reply acknowledges the register's cache. */
  function NumberOf(r: Register): byte {
    match r
    case Enable(i) => MESSAGE_MOTOR_ENABLE_0 + i
    case FloatMode(i) => MESSAGE_MOTOR_SET_RUN_MODE_0 + i
    case ServoOn(i) => MESSAGE_SERVO_ENABLE_0 + i
    case Period(i) => MESSAGE_SERVO_CONFIGURATION_0 + i
  }

  /** The register whose cache a reply with this reference number acknowledges, by the ranges of the dispatch. */
  function RegisterOf(number: byte): Option<Register> {
    if MESSAGE_SERVO_ENABLE_0 <= number < MESSAGE_SERVO_CONFIGURATION_0 then
      Some(ServoOn(number - MESSAGE_SERVO_ENABLE_0))
    else if MESSAGE_SERVO_CONFIGURATION_0 <= number < MESSAGE_SERVO_PULSE_WIDTH_0 then
      Some(Period(number - MESSAGE_SERVO_CONFIGURATION_0))
    else if MESSAGE_MOTOR_ENABLE_0 <= number < MESSAGE_MOTOR_RESET_ENCODER_0 then
      Some(Enable(number - MESSAGE_MOTOR_ENABLE_0))
    else if MESSAGE_MOTOR_SET_RUN_MODE_0 <= number < MESSAGE_MOTOR_SET_CONSTANT_POWER_0 then
      Some(FloatMode(number - MESSAGE_MOTOR_SET_RUN_MODE_0))
    else None
  }

  /** The numbering is one to one: the reply to a register's command acknowledges that register and no other. */
  lemma NumberingTiesReplyToRegister(r: Register, n: byte)
    ensures RegisterOf(NumberOf(r)) == Some(r)
    ensures RegisterOf(n) == Some(r) <==> n == NumberOf(r)
  {
  }

  /** The hub's own command ids must not run into the ids every module shares. */
  predicate UsableInterface(interfaceId: uint16) {
    interfaceId + FTDI_RESET_CONTROL < 0x7F00
  }

  /** The number the daemon must give a packet the hub acts on so; a status request must clear the flags. */
  function NumberFor(a: Action): Option<int> {
    match a
    case Announce => Some(MESSAGE_DISCOVER as int)
    case NameInterface => Some(MESSAGE_QUERY_INTERFACE as int)
    case Configure => Some(MESSAGE_FTDI_RESET_CONTROL as int)
    case KeepAwake => Some(MESSAGE_KEEP_ALIVE as int)
    case ReadStatus(clear) => if clear then Some(MESSAGE_MODULE_STATUS as int) else None
    case ReadBulk => Some(MESSAGE_BULK_INPUT as int)
    case ReadAdc(channel) =>
      if channel == BATTERY_ADC then Some(MESSAGE_BATTERY_VOLTAGE as int)
      else if MOTOR_0_ADC <= channel < MOTOR_0_ADC + NUM_MOTORS then Some(MESSAGE_MOTOR_GET_CURRENT_0 + channel - MOTOR_0_ADC)
      else None
    case Write(r, _) => Some(NumberOf(r) as int)
    case Power(i, _) => Some(MESSAGE_MOTOR_SET_CONSTANT_POWER_0 + i)
    case Pulse(i, _) => Some(MESSAGE_SERVO_PULSE_WIDTH_0 + i)
    case ZeroEncoder(i) => Some(MESSAGE_MOTOR_RESET_ENCODER_0 + i)
    case Ignore => None
  }

  /** What the daemon and the hub must agree on for each packet: it is acted on, and its number says how. */
  predicate Understood(hub: Target, p: Packet) {
    NumberFor(Interpret(hub, p)) == Some(p.number as int)
  }

  /** The number tells the kind and the channel apart. */
  lemma NumberTellsAction(hub: Target, p: Packet)
    requires Understood(hub, p)
    ensures var a := Interpret(hub, p);
            && RegisterOf(p.number) == (if a.Write? then Some(a.register) else None)
            && (p.number == MESSAGE_MODULE_STATUS <==> a == ReadStatus(true))
            && (a.ReadStatus? ==> a.clear)
            && (forall m: MotorIndex :: p.number == MESSAGE_MOTOR_RESET_ENCODER_0 + m <==> a == ZeroEncoder(m))
            && (p.number == MESSAGE_DISCOVER <==> a == Announce)
            && (p.number == MESSAGE_QUERY_INTERFACE <==> a == NameInterface)
            && (p.number == MESSAGE_FTDI_RESET_CONTROL <==> a == Configure)
  {
    hide Interpret;
    var a := Interpret(hub, p);
    if a.Write? {
      NumberingTiesReplyToRegister(a.register, p.number);
    }
  }

  // Each command reaches the register, channel and value it was built for.

  lemma MotorCommandsUnderstood(t: Target, i: MotorIndex, on: bool, power: real)
    requires UsableInterface(t.interfaceId)
    ensures Interpret(t, MotorEnable(t, i, on)) == Write(Enable(i), Flag(on))
    ensures Interpret(t, MotorMode(t, i, on)) == Write(FloatMode(i), Flag(on))
    ensures Interpret(t, EncoderReset(t, i)) == ZeroEncoder(i)
    ensures Interpret(t, MotorConstantPower(t, i, power)) == Power(i, PowerLevel(power))
    ensures Interpret(t, MotorCurrentRequest(t, i)) == ReadAdc(MOTOR_0_ADC + i)
    ensures Understood(t, MotorEnable(t, i, on)) && Understood(t, MotorMode(t, i, on)) && Understood(t, EncoderReset(t, i))
    ensures Understood(t, MotorConstantPower(t, i, power)) && Understood(t, MotorCurrentRequest(t, i))
  {
    hide PowerLevel, LowByte, HighByte, ReadInt16;
    PowerUnderstood(t, i, power);
  }

  lemma PowerUnderstood(t: Target, i: MotorIndex, power: real)
    requires UsableInterface(t.interfaceId)
    ensures Interpret(t, MotorConstantPower(t, i, power)) == Power(i, PowerLevel(power))
  {
    hide PowerLevel, LowByte, HighByte;
    PowerLevelInRange(power);
    var level := PowerLevel(power);
    assert MotorConstantPower(t, i, power).payload[1..] == [LowByte(level), HighByte(level)];
    LittleEndianRoundTrip(level);
  }

  lemma ServoCommandsUnderstood(t: Target, i: ServoIndex, on: bool, value: uint16)
    requires UsableInterface(t.interfaceId)
    ensures Interpret(t, ServoEnable(t, i, on)) == Write(ServoOn(i), Flag(on)) && Understood(t, ServoEnable(t, i, on))
    ensures ServoConfiguration(t, i, value) == [] <==> value <= 1
    ensures ServoPulseWidth(t, i, value) == [] <==> value == 0
    ensures forall p | p in ServoConfiguration(t, i, value) ::
              Interpret(t, p) == Write(Period(i), value) && Understood(t, p)
    ensures forall p | p in ServoPulseWidth(t, i, value) :: Interpret(t, p) == Pulse(i, value) && Understood(t, p)
  {
    LittleEndianRoundTrip(value);
    assert [i, LowByte(value), HighByte(value)][1..] == [LowByte(value), HighByte(value)];
  }

  lemma RequestsUnderstood(t: Target)
    requires UsableInterface(t.interfaceId)
    ensures Interpret(t, KeepAlive(t)) == KeepAwake && Understood(t, KeepAlive(t))
    ensures Interpret(t, ModuleStatus(t)) == ReadStatus(true) && Understood(t, ModuleStatus(t))
    ensures Interpret(t, BatteryRequest(t)) == ReadAdc(BATTERY_ADC) && Understood(t, BatteryRequest(t))
    ensures Interpret(t, BulkInput(t)) == ReadBulk && Understood(t, BulkInput(t))
  {
  }

  /** The handshake requests reach the hub they are for: the first from anyone, the others by what was learned of it. */
  lemma HandshakeUnderstood(t: Target)
    requires UsableInterface(t.interfaceId)
    ensures Interpret(t, Discover()) == Announce && Understood(t, Discover())
    ensures Interpret(t, QueryInterface(t.address)) == NameInterface && Understood(t, QueryInterface(t.address))
    ensures Interpret(t, FtdiConfigure(t)) == Configure && Understood(t, FtdiConfigure(t))
  {
    assert Terminated("DEKA") == [0x44, 0x45, 0x4B, 0x41, 0x00];
  }

  // ---- Power levels ----

  /**
   * The level nearest to the power's share of the full scale, not beyond it: power 1 and more is 32767, and the
   * negative powers mirror the positive ones. There is exactly one such level for each power.
   */
  predicate Scales(level: int, power: real) {
    if power >= 1.0 then level == 32767
    else if power <= -1.0 then level == -32767
    else if power >= 0.0 then level as real <= 32767.0 * power < level as real + 1.0
    else level as real - 1.0 < 32767.0 * power <= level as real
  }

  lemma PowerLevelScales(power: real)
    ensures Scales(PowerLevel(power), power)
  {
  }

  /** The cast to int16_t never overflows, and the sign and the full scale survive it. */
  lemma PowerLevelInRange(power: real)
    ensures -POWER_CONVERSION <= PowerLevel(power) <= POWER_CONVERSION
    ensures power >= 1.0 ==> PowerLevel(power) == POWER_CONVERSION
    ensures power <= -1.0 ==> PowerLevel(power) == -POWER_CONVERSION
    ensures PowerLevel(-power) == -PowerLevel(power)
  {
    var c := Clamp(power, -1.0, 1.0);
    assert Clamp(-power, -1.0, 1.0) == -c;
    assert (-c) * 32767.0 == -(c * 32767.0);
  }

  // ---- Frames byte by byte, up to the checksum ----

  /** The handshake on the wire, for a hub at address 2 that reports interface id 0x1000. */
  lemma KnownHandshakeFrames(t: Target)
    requires t == Target(2, 0x1000)
    ensures Body(Discover()) == [0x44, 0x4B, 0x0B, 0x00, 0xFF, 0x00, 0x00, 0x00, 0x0F, 0x7F]
    ensures Body(QueryInterface(2)) == [0x44, 0x4B, 0x10, 0x00, 0x02, 0x00, 0x02, 0x00, 0x07, 0x7F, 0x44, 0x45, 0x4B, 0x41, 0x00]
    ensures Body(FtdiConfigure(t)) == [0x44, 0x4B, 0x0C, 0x00, 0x02, 0x00, 0x01, 0x00, 0x31, 0x10, 0x01]
  {
  }

  /** The requests of the same hub. */
  lemma KnownRequestFrames(t: Target)
    requires t == Target(2, 0x1000)
    ensures Body(KeepAlive(t)) == [0x44, 0x4B, 0x0B, 0x00, 0x02, 0x00, 0x2B, 0x00, 0x04, 0x7F]
    ensures Body(ModuleStatus(t)) == [0x44, 0x4B, 0x0C, 0x00, 0x02, 0x00, 0x2A, 0x00, 0x03, 0x7F, 0x01]
    ensures Body(BatteryRequest(t)) == [0x44, 0x4B, 0x0D, 0x00, 0x02, 0x00, 0x2C, 0x00, 0x07, 0x10, 0x0D, 0x00]
    ensures Body(BulkInput(t)) == [0x44, 0x4B, 0x0B, 0x00, 0x02, 0x00, 0x29, 0x00, 0x00, 0x10]
    ensures Body(MotorCurrentRequest(t, 3)) == [0x44, 0x4B, 0x0D, 0x00, 0x02, 0x00, 0x28, 0x00, 0x07, 0x10, 0x0B, 0x00]
  {
  }

  /** Its motor commands. */
  lemma KnownMotorFrames(t: Target)
    requires t == Target(2, 0x1000)
    ensures Body(EncoderReset(t, 1)) == [0x44, 0x4B, 0x0C, 0x00, 0x02, 0x00, 0x1A, 0x00, 0x0E, 0x10, 0x01]
    ensures Body(MotorMode(t, 2, true)) == [0x44, 0x4B, 0x0E, 0x00, 0x02, 0x00, 0x1F, 0x00, 0x08, 0x10, 0x02, 0x00, 0x01]
    ensures Body(MotorEnable(t, 0, true)) == [0x44, 0x4B, 0x0D, 0x00, 0x02, 0x00, 0x15, 0x00, 0x0A, 0x10, 0x00, 0x01]
    ensures Body(MotorConstantPower(t, 1, -1.0)) == [0x44, 0x4B, 0x0E, 0x00, 0x02, 0x00, 0x22, 0x00, 0x0F, 0x10, 0x01, 0x01, 0x80]
  {
  }

  /** Its servo commands. */
  lemma KnownServoFrames(t: Target)
    requires t == Target(2, 0x1000)
    ensures Body(ServoConfiguration(t, 5, 20000)[0]) == [0x44, 0x4B, 0x0E, 0x00, 0x02, 0x00, 0x0E, 0x00, 0x1F, 0x10, 0x05, 0x20, 0x4E]
    ensures Body(ServoPulseWidth(t, 4, 1500)[0]) == [0x44, 0x4B, 0x0E, 0x00, 0x02, 0x00, 0x13, 0x00, 0x21, 0x10, 0x04, 0xDC, 0x05]
    ensures Body(ServoEnable(t, 3, false)) == [0x44, 0x4B, 0x0D, 0x00, 0x02, 0x00, 0x06, 0x00, 0x23, 0x10, 0x03, 0x00]
  {
  }
}
