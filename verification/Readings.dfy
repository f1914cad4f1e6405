/** What the numbers in the hub's replies mean once they are in the store. */
module Readings {
  import opened Bytes
  import opened Messages
  import opened Protocol
  import opened Stores

  function Int16Bytes(v: int): seq<byte> {
    [LowByte(v), HighByte(v)]
  }

  function Int32Bytes(v: int): seq<byte> {
    [LowByte(v), HighByte(v), LowByte(v / 0x1_0000), HighByte(v / 0x1_0000)]
  }

  predicate FitsInt16(v: int) {
    -0x8000 <= v < 0x8000
  }

  predicate FitsInt32(v: int) {
    -0x8000_0000 <= v < 0x8000_0000
  }

  /** The two low bytes do not see the rest of a wider integer. */
  lemma LowHalf(high: int, low: uint16)
    ensures LowByte(0x1_0000 * high + low) == LowByte(low) && HighByte(0x1_0000 * high + low) == HighByte(low)
  {
    var v, q, r := 0x1_0000 * high + low, low / 0x100, low % 0x100;
    assert v == 0x100 * (0x100 * high + q) + r;
    assert v / 0x100 == 0x100 * high + q;
  }

  lemma Int32RoundTrip(v: int)
    requires FitsInt32(v)
    ensures |Int32Bytes(v)| == 4 && ReadInt32(Int32Bytes(v)) == v
  {
    hide LowByte, HighByte;
    var low: uint16, high := v % 0x1_0000, v / 0x1_0000;
    assert v == 0x1_0000 * high + low;
    LowHalf(high, low);
    LittleEndianRoundTrip(low);
    LittleEndianRoundTrip(high);
  }

  /** The layout of a bulk reply: digital inputs, four positions, motor status, four velocities. */
  function BulkPayload(inputs: byte, positions: seq<int>, status: byte, velocities: seq<int>): seq<byte>
    requires |positions| == |velocities| == NUM_MOTORS
  {
    [inputs] + Int32Bytes(positions[0]) + Int32Bytes(positions[1]) + Int32Bytes(positions[2]) + Int32Bytes(positions[3]) +
    [status] + Int16Bytes(velocities[0]) + Int16Bytes(velocities[1]) + Int16Bytes(velocities[2]) + Int16Bytes(velocities[3])
  }

  /** A reading in the motor's own direction and unit; everything else of the motor stays. */
  predicate Reads(before: Motor, after: Motor, s: MotorSample, position: int, velocity: int) {
    var unit := if s.distancePerCount == 0.0 then 1.0 else s.distancePerCount;
    && after == before.(position := after.position, velocity := after.velocity)
    && after.position == (if s.reversed then -position else position) as real * unit
    && after.velocity == (if s.reversed then -velocity else velocity) as real * unit
  }

  lemma ScaledReads(m: Motor, s: MotorSample, position: int, velocity: int)
    ensures Reads(m, ScaledEncoder(m, s, position, velocity), s, position, velocity)
  {
    assert position as real * -1.0 == (-position) as real && velocity as real * -1.0 == (-velocity) as real;
  }

  /** Every motor gets its own position and velocity out of the bulk reply. */
  lemma BulkReadings(st: Store, io: Samples, inputs: byte, positions: seq<int>, status: byte, velocities: seq<int>,
                     i: MotorIndex)
    requires |positions| == |velocities| == NUM_MOTORS
    requires FitsInt32(positions[i]) && FitsInt16(velocities[i])
    ensures var payload := BulkPayload(inputs, positions, status, velocities);
            && |payload| == 26
            && Reads(st.motors[i], RecordReply(st, MESSAGE_BULK_INPUT, payload, io).motors[i], io.motors[i],
                     positions[i], velocities[i])
  {
    hide BulkPayload, ReadInt16, ReadInt32, Int16Bytes, Int32Bytes, ScaledEncoder, Reads, LowByte, HighByte;
    var payload := BulkPayload(inputs, positions, status, velocities);
    BulkFields(inputs, positions, status, velocities, i);
    Int32RoundTrip(positions[i]);
    Int16RoundTrip(velocities[i]);
    ReadsFirstBytes(payload, 1 + 4 * i, 18 + 2 * i);
    ScaledReads(st.motors[i], io.motors[i], positions[i], velocities[i]);
  }

  lemma Int16RoundTrip(v: int)
    requires FitsInt16(v)
    ensures |Int16Bytes(v)| == 2 && ReadInt16(Int16Bytes(v)) == v
  {
    LittleEndianRoundTrip(v);
  }

  lemma BulkFields(inputs: byte, positions: seq<int>, status: byte, velocities: seq<int>, i: MotorIndex)
    requires |positions| == |velocities| == NUM_MOTORS
    ensures var payload := BulkPayload(inputs, positions, status, velocities);
            && |payload| == 26
            && payload[1 + 4 * i..5 + 4 * i] == Int32Bytes(positions[i])
            && payload[18 + 2 * i..20 + 2 * i] == Int16Bytes(velocities[i])
  {
  }

  lemma ReadsFirstBytes(payload: seq<byte>, p: nat, v: nat)
    requires p + 4 <= |payload| && v + 2 <= |payload|
    ensures ReadInt32(payload[p..]) == ReadInt32(payload[p..p + 4])
    ensures ReadInt16(payload[v..]) == ReadInt16(payload[v..v + 2])
  {
  }

  /** The battery reply is in millivolts. */
  lemma BatteryReading(st: Store, io: Samples, millivolts: int)
    requires FitsInt16(millivolts)
    ensures RecordReply(st, MESSAGE_BATTERY_VOLTAGE, Int16Bytes(millivolts), io) ==
            st.(lastBattery := millivolts as real / 1000.0)
  {
    LittleEndianRoundTrip(millivolts);
  }

  /**
   * What a computed power means at a nonzero battery reading: the voltage modes ask for the power that gives their
   * volts, the percentage mode for its setpoint; a reversed motor gets the opposite; a follower asks for nothing itself.
   */
  lemma PowerMeaning(s: MotorSample, battery: real)
    requires battery != 0.0
    ensures var (power, leader) := ComputeMotorPower(s, battery);
            && (leader >= 0 ==> s.mode == FOLLOWER_MODE)
            && (s.mode == FOLLOWER_MODE ==> power == 0.0)
            && (s.mode == VOLTAGE_MODE && !s.reversed ==> power * battery == s.setpoint)
            && (s.mode == POSITION_PID_MODE && !s.reversed ==> power * battery == s.positionPid)
            && (s.mode == VELOCITY_PID_MODE && !s.reversed ==> power * battery == s.velocityPid)
            && (s.mode !in {1, 2, 3, 4} && !s.reversed ==> power == s.setpoint)
            && ComputeMotorPower(s.(reversed := !s.reversed), battery) == (-power, leader)
  {
    Negated(s.setpoint, battery);
    Negated(s.positionPid, battery);
    Negated(s.velocityPid, battery);
  }

  lemma Negated(x: real, y: real)
    requires y != 0.0
    ensures x / y * 1.0 == x / y && x / y * -1.0 == -(x / y) && (x / y) * y == x
  {
  }
}
