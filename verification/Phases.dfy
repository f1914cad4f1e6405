/** The command batch phase by phase and channel by channel, as the loops of the daemon build it. */
module Phases {
  import opened Caches
  import opened Frames
  import opened Messages
  import opened Stores
  import opened Wrappers

  function ModePackets(command: Option<bool>, i: MotorIndex, t: Target): seq<Packet> {
    match command
    case Some(v) => [MotorMode(t, i, v)]
    case None => []
  }

  function ModeAttempted(st: Store, i: MotorIndex, value: bool): Store {
    st.(motors := st.motors[i := st.motors[i].(floatOn0 := Attempt(st.motors[i].floatOn0, value))])
  }

  /** The store after the first n channels of the phase. */
  function ModesAttempted(st: Store, io: Samples, n: nat): Store {
    st.(motors := seq(NUM_MOTORS, i requires 0 <= i < NUM_MOTORS =>
          if i < n then st.motors[i].(floatOn0 := Attempt(st.motors[i].floatOn0, io.motors[i].floatOn0))
          else st.motors[i]))
  }

  lemma ModeStep(st: Store, io: Samples, t: Target, i: MotorIndex)
    ensures var s, value := ModesAttempted(st, io, i), io.motors[i].floatOn0;
            && ModePackets(Wanted(s.motors[i].floatOn0, value), i, t) == ModePhase(st, io, t)[i]
            && ModeAttempted(s, i, value) == ModesAttempted(st, io, i + 1)
    ensures ModesAttempted(st, io, 0) == st
  {
  }

  function EnablePackets(command: Option<bool>, i: MotorIndex, t: Target): seq<Packet> {
    match command
    case Some(v) => [MotorEnable(t, i, v)]
    case None => []
  }

  function EnableAttempted(st: Store, i: MotorIndex, value: bool): Store {
    st.(motors := st.motors[i := st.motors[i].(enabled := Attempt(st.motors[i].enabled, value))])
  }

  /** The store after the first n channels of the phase. */
  function EnablesAttempted(st: Store, io: Samples, canEnable: bool, n: nat): Store {
    st.(motors := seq(NUM_MOTORS, i requires 0 <= i < NUM_MOTORS =>
          if i < n then st.motors[i].(enabled := Attempt(st.motors[i].enabled, canEnable && io.motors[i].enabled))
          else st.motors[i]))
  }

  lemma EnableStep(st: Store, io: Samples, canEnable: bool, t: Target, i: MotorIndex)
    ensures var s, value := EnablesAttempted(st, io, canEnable, i), canEnable && io.motors[i].enabled;
            && EnablePackets(Wanted(s.motors[i].enabled, value), i, t) == EnablePhase(st, io, canEnable, t)[i]
            && EnableAttempted(s, i, value) == EnablesAttempted(st, io, canEnable, i + 1)
    ensures EnablesAttempted(st, io, canEnable, 0) == st
  {
  }

  function PeriodPackets(command: Option<int64>, i: ServoIndex, t: Target): seq<Packet> {
    match command
    case Some(v) => ServoConfiguration(t, i, v % 0x1_0000)
    case None => []
  }

  function PeriodAttempted(st: Store, i: ServoIndex, value: int64): Store {
    st.(servos := st.servos[i := st.servos[i].(framePeriod := Attempt(st.servos[i].framePeriod, value))])
  }

  /** The store after the first n channels of the phase. */
  function PeriodsAttempted(st: Store, io: Samples, n: nat): Store {
    st.(servos := seq(NUM_SERVOS, i requires 0 <= i < NUM_SERVOS =>
          if i < n then st.servos[i].(framePeriod := Attempt(st.servos[i].framePeriod, io.servos[i].framePeriod))
          else st.servos[i]))
  }

  lemma PeriodStep(st: Store, io: Samples, t: Target, i: ServoIndex)
    ensures var s, value := PeriodsAttempted(st, io, i), io.servos[i].framePeriod;
            && PeriodPackets(Wanted(s.servos[i].framePeriod, value), i, t) == PeriodPhase(st, io, t)[i]
            && PeriodAttempted(s, i, value) == PeriodsAttempted(st, io, i + 1)
    ensures PeriodsAttempted(st, io, 0) == st
  {
  }

  function ServoOnPackets(command: Option<bool>, i: ServoIndex, t: Target): seq<Packet> {
    match command
    case Some(v) => [ServoEnable(t, i, v)]
    case None => []
  }

  function ServoOnAttempted(st: Store, i: ServoIndex, value: bool): Store {
    st.(servos := st.servos[i := st.servos[i].(enabled := Attempt(st.servos[i].enabled, value))])
  }

  /** The store after the first n channels of the phase. */
  function ServoOnsAttempted(st: Store, io: Samples, canEnable: bool, n: nat): Store {
    st.(servos := seq(NUM_SERVOS, i requires 0 <= i < NUM_SERVOS =>
          if i < n then st.servos[i].(enabled := Attempt(st.servos[i].enabled, canEnable && io.servos[i].enabled))
          else st.servos[i]))
  }

  lemma ServoOnStep(st: Store, io: Samples, canEnable: bool, t: Target, i: ServoIndex)
    ensures var s, value := ServoOnsAttempted(st, io, canEnable, i), canEnable && io.servos[i].enabled;
            && ServoOnPackets(Wanted(s.servos[i].enabled, value), i, t) == ServoOnPhase(st, io, canEnable, t)[i]
            && ServoOnAttempted(s, i, value) == ServoOnsAttempted(st, io, canEnable, i + 1)
    ensures ServoOnsAttempted(st, io, canEnable, 0) == st
  {
  }

  lemma PowerStep(io: Samples, battery: real, t: Target, i: MotorIndex)
    ensures PowerPhase(io, battery, t)[i] == [MotorConstantPower(t, i, SentPower(MotorPowers(io, battery), i))]
  {
  }

  /** The phases work on different caches: what one attempts does not show in another. */
  lemma PhasesAreIndependent(st: Store, io: Samples, canEnable: bool, t: Target)
    ensures var s1 := ModesAttempted(st, io, NUM_MOTORS);
            var s2 := EnablesAttempted(s1, io, canEnable, NUM_MOTORS);
            var s3 := PeriodsAttempted(s2, io, NUM_SERVOS);
            && EnablePhase(s1, io, canEnable, t) == EnablePhase(st, io, canEnable, t)
            && PeriodPhase(s2, io, t) == PeriodPhase(st, io, t)
            && ServoOnPhase(s3, io, canEnable, t) == ServoOnPhase(st, io, canEnable, t)
            && ServoOnsAttempted(s3, io, canEnable, NUM_SERVOS) == AttemptAll(st, io, canEnable)
  {
  }

  /** A batch after a device reset is a batch from forgotten caches. */
  lemma BatchFromBase(st: Store, io: Samples, canEnable: bool, deviceReset: bool, t: Target)
    ensures var base := CommandBase(st, deviceReset);
            && base == (if deviceReset then ForgetAll(st) else st)
            && CommandPackets(st, io, canEnable, deviceReset, t) == CommandPackets(base, io, canEnable, false, t)
            && CommandStore(st, io, canEnable, deviceReset) == CommandStore(base, io, canEnable, false)
  {
    hide Flatten, PowerPhase, CurrentPhase, ModePhase, EnablePhase, PeriodPhase, ServoOnPhase, AttemptAll;
  }

  lemma BatchIgnoresCounters(st: Store, st': Store, io: Samples, canEnable: bool, deviceReset: bool, t: Target)
    requires st' == st.(numNacks := st'.numNacks)
    ensures CommandPackets(st', io, canEnable, deviceReset, t) == CommandPackets(st, io, canEnable, deviceReset, t)
    ensures CommandStore(st', io, canEnable, deviceReset) ==
            CommandStore(st, io, canEnable, deviceReset).(numNacks := st'.numNacks)
  {
    hide Flatten, ModePhase, EnablePhase, PeriodPhase, ServoOnPhase, PowerPhase, CurrentPhase;
    PhasesIgnoreCounters(CommandBase(st, deviceReset), CommandBase(st', deviceReset), io, canEnable, t);
  }

  lemma ForgettingKeepsCounters(st: Store)
    ensures ForgetAll(st.(numNacks := 0, numCrcFailures := 0, numMissedSendLoops := 0)) ==
            Afresh(st)
  {
  }

  lemma PhasesIgnoreCounters(st: Store, st': Store, io: Samples, canEnable: bool, t: Target)
    requires st'.motors == st.motors && st'.servos == st.servos
    ensures ModePhase(st', io, t) == ModePhase(st, io, t)
    ensures EnablePhase(st', io, canEnable, t) == EnablePhase(st, io, canEnable, t)
    ensures PeriodPhase(st', io, t) == PeriodPhase(st, io, t)
    ensures ServoOnPhase(st', io, canEnable, t) == ServoOnPhase(st, io, canEnable, t)
  {
  }

  // ---- The opening batch ----

  function ResetObserved(st: Store, i: MotorIndex, s: MotorSample): Store {
    st.(motors := st.motors[i := ObserveReset(st.motors[i], s)])
  }

  function ResetsObserved(st: Store, io: Samples, n: nat): Store {
    st.(motors := seq(NUM_MOTORS, i requires 0 <= i < NUM_MOTORS =>
          if i < n then ObserveReset(st.motors[i], io.motors[i]) else st.motors[i]))
  }

  function ResetPackets(wanted: bool, i: MotorIndex, t: Target): seq<Packet> {
    if wanted then [EncoderReset(t, i)] else []
  }

  lemma ResetStep(st: Store, io: Samples, t: Target, i: MotorIndex)
    ensures var s := ResetObserved(ResetsObserved(st, io, i), i, io.motors[i]);
            && s == ResetsObserved(st, io, i + 1)
            && ResetPackets(s.motors[i].doReset, i, t) == ResetPhase(InitialStore(st, io), t)[i]
    ensures ResetsObserved(st, io, 0) == st && ResetsObserved(st, io, NUM_MOTORS) == InitialStore(st, io)
  {
  }
}
