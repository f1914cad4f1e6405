/** The daemon's objects: the serial link with its byte buffers, and the hub state that drives it. */
module Daemon {
  import opened Buffers
  import opened Bytes
  import opened Caches
  import opened Calls
  import opened Framer
  import opened Frames
  import opened Messages
  import opened NtState
  import opened Phases
  import opened Protocol
  import opened Stores
  import opened Wrappers

  class ExpansionHubSerial {
    const stateMachine: ReceiveStateMachine
    const txBuffer: array<byte>
    const serialPath: string
    var ntStore: ExpansionHubNtState?
    var onSendCommands: ExpansionHubState?

    var discoverStartTime: uint64
    var address: Option<byte>
    var packetInterfaceId: Option<uint16>
    var outstandingMessages: byte
    var writeBuffer: seq<byte>
    var pendingWrites: seq<nat>
    var currentCount: nat
    var canEnable: bool
    var deviceReset: bool
    var configuredFtdiReset: bool
    var sendState: SendState
    var haveBulk: bool
    var haveBattery: bool
    var haveModuleStatus: bool

    /** The packets enqueued since the transaction started, those of them not yet written, and every write call made. */
    ghost var enqueued: seq<Packet>
    ghost var queue: seq<Packet>
    ghost var wire: seq<seq<byte>>

    ghost function Model(): Link
      reads this
    {
      Link(address, packetInterfaceId, configuredFtdiReset, discoverStartTime, queue, outstandingMessages, sendState,
           haveBattery, haveBulk, haveModuleStatus, canEnable, deviceReset)
    }

    ghost predicate Valid()
      reads this
    {
      && txBuffer.Length == MAX_FRAME
      && Accounted(enqueued, queue, writeBuffer, pendingWrites, currentCount)
    }

    ghost function View(): Traffic
      reads this
    {
      Traffic(Model(), enqueued, wire)
    }

    /** The packets were enqueued at the end of the queue and nothing was written. */
    twostate predicate Queued(new ps: seq<Packet>)
      reads this
    {
      Valid() && View() == Queue(old(View()), ps)
    }

    ghost predicate HasTarget(t: Target)
      reads this
    {
      address == Some(t.address) && packetInterfaceId == Some(t.interfaceId)
    }

    constructor (path: string)
      ensures Valid() && View() == Traffic(NEW_LINK, [], [])
      ensures stateMachine.Valid() && stateMachine.Model() == Idle(0, 0)
      ensures fresh(stateMachine) && fresh(txBuffer)
      ensures serialPath == path && ntStore == null && onSendCommands == null
    {
      stateMachine := new ReceiveStateMachine();
      txBuffer := new byte[MAX_FRAME];
      serialPath := path;
      ntStore, onSendCommands := null, null;
      discoverStartTime, address, packetInterfaceId := 0, None, None;
      outstandingMessages, writeBuffer, pendingWrites, currentCount := 0, [], [], 0;
      canEnable, deviceReset, configuredFtdiReset := false, false, false;
      sendState, haveBulk, haveBattery, haveModuleStatus := ReadyToSend, false, false, false;
      enqueued, queue, wire := [], [], [];
    }

    // ---- Sending ----

    /** Writes the frame at once when direct; otherwise appends it to the write buffer. */
    method SendPacket(destAddr: byte, messageNumber: byte, packetTypeId: uint16, payload: seq<byte>, direct: bool)
      requires Valid() && |payload| < MAX_FRAME - MIN_FRAME
      modifies this`writeBuffer, this`pendingWrites, this`queue, this`enqueued, this`wire, txBuffer
      ensures var p := Packet(destAddr, messageNumber, packetTypeId, payload);
              if direct then Valid() && View() == old(View()).(wire := old(wire) + [Encode(p)])
              else Queued([p])
    {
      hide Encode, Accounted;
      ghost var p := Packet(destAddr, messageNumber, packetTypeId, payload);
      var bytesToSend := BuildFrame(txBuffer, Packet(destAddr, messageNumber, packetTypeId, payload));
      var frame := txBuffer[..bytesToSend];
      if direct {
        wire := wire + [frame];
      } else {
        EnqueueAccounted(enqueued, queue, writeBuffer, pendingWrites, currentCount, p);
        writeBuffer := writeBuffer + frame;
        pendingWrites := pendingWrites + [|frame|];
        queue := queue + [p];
        enqueued := enqueued + [p];
      }
    }

    /** Pops the sizes of the first frames and adds them up. */
    method PopSizes(toWrite: nat) returns (count: nat)
      requires toWrite <= |pendingWrites|
      modifies this`pendingWrites
      ensures count == Total(old(pendingWrites)[..toWrite]) && pendingWrites == old(pendingWrites)[toWrite..]
    {
      ghost var sizes := pendingWrites;
      count := 0;
      for i := 0 to toWrite
        invariant pendingWrites == sizes[i..]
        invariant count == Total(sizes[..i])
      {
        assert sizes[..i + 1][..i] == sizes[..i];
        count := count + pendingWrites[0];
        pendingWrites := pendingWrites[1..];
      }
    }

    /** One write call for the first frames of the buffer that are not yet written; the slice is always inside it. */
    method WriteFrames(toWrite: nat, count: nat, ghost sizes: seq<nat>)
      requires txBuffer.Length == MAX_FRAME && Accounted(enqueued, queue, writeBuffer, sizes, currentCount)
      requires toWrite <= |queue| == |sizes| && pendingWrites == sizes[toWrite..] && count == Total(sizes[..toWrite])
      modifies this`outstandingMessages, this`currentCount, this`queue, this`wire
      ensures Valid()
      ensures View() == old(View()).(
                link := old(Model()).(queue := old(queue)[toWrite..], window := (old(outstandingMessages) + toWrite) % 0x100),
                wire := old(wire) + [EncodeAll(old(queue)[..toWrite])])
    {
      hide EncodeAll, Total, Accounted, Sizes, Encode;
      FlushAccounted(enqueued, queue, writeBuffer, sizes, currentCount, toWrite);
      wire := wire + [writeBuffer[currentCount..currentCount + count]];
      outstandingMessages := (outstandingMessages + toWrite) % 0x100;
      currentCount := currentCount + count;
      queue := queue[toWrite..];
    }

    /** Writes as many queued frames as the window allows; a counter past eight allows all of them. */
    method Flush()
      requires Valid()
      modifies this`pendingWrites, this`outstandingMessages, this`currentCount, this`queue, this`wire
      ensures Valid()
      ensures View() == FlushedTraffic(old(View()))
    {
      hide EncodeAll, Total, Accounted, Sizes, WrittenDirect, Encode, Written, Protocol.Flush;
      PendingPerPacket(enqueued, queue, writeBuffer, pendingWrites, currentCount);
      var available := |pendingWrites|;
      var allowed := (MAX_NUM_OUTSTANDING_MESSAGES - outstandingMessages) % 0x1_0000_0000_0000_0000;
      var toWrite: nat := if allowed < available then allowed else available;
      FlushByCount(Model(), toWrite);
      FlushWrites(Model(), toWrite);
      FlushAccounted(enqueued, queue, writeBuffer, pendingWrites, currentCount, toWrite);
      ghost var sizes := pendingWrites;
      var count := PopSizes(toWrite);
      if count == 0 {
        Whole(sizes);
        return;
      }
      WriteFrames(toWrite, count, sizes);
    }

    // ---- The commands ----

    method SendBatteryRequest(ghost t: Target)
      requires Valid() && HasTarget(t)
      modifies this`writeBuffer, this`pendingWrites, this`queue, this`enqueued, this`wire, txBuffer
      ensures Queued([BatteryRequest(t)])
    {
      hide Queue, Accounted;
      var packetId := (packetInterfaceId.value + 7) % 0x1_0000;
      SendPacket(address.value, MESSAGE_BATTERY_VOLTAGE, packetId, [BATTERY_ADC, 0], false);
    }

    method SendMotorCurrentRequest(ghost t: Target, channel: MotorIndex)
      requires Valid() && HasTarget(t)
      modifies this`writeBuffer, this`pendingWrites, this`queue, this`enqueued, this`wire, txBuffer
      ensures Queued([MotorCurrentRequest(t, channel)])
    {
      hide Queue, Accounted;
      var packetId := (packetInterfaceId.value + 7) % 0x1_0000;
      var adcChannel: byte := 8 + channel;
      SendPacket(address.value, MESSAGE_MOTOR_GET_CURRENT_0 + channel, packetId, [adcChannel, 0], false);
    }

    method SendEncoderResetRequest(ghost t: Target, channel: MotorIndex)
      requires Valid() && HasTarget(t)
      modifies this`writeBuffer, this`pendingWrites, this`queue, this`enqueued, this`wire, txBuffer
      ensures Queued([EncoderReset(t, channel)])
    {
      hide Queue, Accounted;
      var packetId := (packetInterfaceId.value + 14) % 0x1_0000;
      SendPacket(address.value, MESSAGE_MOTOR_RESET_ENCODER_0 + channel, packetId, [channel], false);
    }

    method SendServoConfiguration(ghost t: Target, channel: ServoIndex, framePeriod: uint16)
      requires Valid() && HasTarget(t)
      modifies this`writeBuffer, this`pendingWrites, this`queue, this`enqueued, this`wire, txBuffer
      ensures Queued(ServoConfiguration(t, channel, framePeriod))
    {
      if framePeriod <= 1 {
        assert queue + [] == queue && enqueued + [] == enqueued;
        return;
      }
      var packetId := (packetInterfaceId.value + 31) % 0x1_0000;
      SendPacket(address.value, MESSAGE_SERVO_CONFIGURATION_0 + channel, packetId,
                 [channel, LowByte(framePeriod), HighByte(framePeriod)], false);
    }

    method SendServoPulseWidth(ghost t: Target, channel: ServoIndex, pulseWidth: uint16)
      requires Valid() && HasTarget(t)
      modifies this`writeBuffer, this`pendingWrites, this`queue, this`enqueued, this`wire, txBuffer
      ensures Queued(ServoPulseWidth(t, channel, pulseWidth))
    {
      if pulseWidth == 0 {
        assert queue + [] == queue && enqueued + [] == enqueued;
        return;
      }
      var packetId := (packetInterfaceId.value + 33) % 0x1_0000;
      SendPacket(address.value, MESSAGE_SERVO_PULSE_WIDTH_0 + channel, packetId,
                 [channel, LowByte(pulseWidth), HighByte(pulseWidth)], false);
    }

    method SendServoEnable(ghost t: Target, channel: ServoIndex, enable: bool)
      requires Valid() && HasTarget(t)
      modifies this`writeBuffer, this`pendingWrites, this`queue, this`enqueued, this`wire, txBuffer
      ensures Queued([ServoEnable(t, channel, enable)])
    {
      hide Queue, Accounted;
      var packetId := (packetInterfaceId.value + 35) % 0x1_0000;
      var enableVal: byte := if enable then 1 else 0;
      SendPacket(address.value, MESSAGE_SERVO_ENABLE_0 + channel, packetId, [channel, enableVal], false);
    }

    method SendMotorConstantPower(ghost t: Target, channel: MotorIndex, requested: real)
      requires Valid() && HasTarget(t)
      modifies this`writeBuffer, this`pendingWrites, this`queue, this`enqueued, this`wire, txBuffer
      ensures Queued([MotorConstantPower(t, channel, requested)])
    {
      hide Queue, Accounted;
      var power := Clamp(requested, -1.0, 1.0);
      var packetId := (packetInterfaceId.value + 15) % 0x1_0000;
      var adjustedPowerLevel := Truncate(power * POWER_CONVERSION as real);
      SendPacket(address.value, MESSAGE_MOTOR_SET_CONSTANT_POWER_0 + channel, packetId,
                 [channel, LowByte(adjustedPowerLevel), HighByte(adjustedPowerLevel)], false);
    }

    method SendMotorMode(ghost t: Target, channel: MotorIndex, floatVal: bool)
      requires Valid() && HasTarget(t)
      modifies this`writeBuffer, this`pendingWrites, this`queue, this`enqueued, this`wire, txBuffer
      ensures Queued([MotorMode(t, channel, floatVal)])
    {
      hide Queue, Accounted;
      var packetId := (packetInterfaceId.value + 8) % 0x1_0000;
      var doFloat: byte := if floatVal then 1 else 0;
      SendPacket(address.value, MESSAGE_MOTOR_SET_RUN_MODE_0 + channel, packetId, [channel, 0, doFloat], false);
    }

    method SendMotorEnable(ghost t: Target, channel: MotorIndex, enable: bool)
      requires Valid() && HasTarget(t)
      modifies this`writeBuffer, this`pendingWrites, this`queue, this`enqueued, this`wire, txBuffer
      ensures Queued([MotorEnable(t, channel, enable)])
    {
      hide Queue, Accounted;
      var packetId := (packetInterfaceId.value + 10) % 0x1_0000;
      var enableVal: byte := if enable then 1 else 0;
      SendPacket(address.value, MESSAGE_MOTOR_ENABLE_0 + channel, packetId, [channel, enableVal], false);
    }

    method GetModuleStatus(ghost t: Target)
      requires Valid() && HasTarget(t)
      modifies this`writeBuffer, this`pendingWrites, this`queue, this`enqueued, this`wire, txBuffer
      ensures Queued([ModuleStatus(t)])
    {
      hide Queue, Accounted;
      SendPacket(address.value, MESSAGE_MODULE_STATUS, MODULE_STATUS_ID, [1], false);
    }

    method SendKeepAlive(ghost t: Target)
      requires Valid() && HasTarget(t)
      modifies this`writeBuffer, this`pendingWrites, this`queue, this`enqueued, this`wire, txBuffer
      ensures Queued([KeepAlive(t)])
    {
      hide Queue, Accounted;
      SendPacket(address.value, MESSAGE_KEEP_ALIVE, KEEP_ALIVE_ID, [], false);
    }

    method SendBulkInput(ghost t: Target)
      requires Valid() && HasTarget(t)
      modifies this`writeBuffer, this`pendingWrites, this`queue, this`enqueued, this`wire, txBuffer
      ensures Queued([BulkInput(t)])
    {
      hide Queue, Accounted;
      var packetId := (packetInterfaceId.value + 0) % 0x1_0000;
      SendPacket(address.value, MESSAGE_BULK_INPUT, packetId, [], false);
    }

    // ---- Handshake ----

    method SetCallbacks(doOnSendCommands: ExpansionHubState, store: ExpansionHubNtState)
      modifies this`onSendCommands, this`ntStore
      ensures onSendCommands == doOnSendCommands && ntStore == store
    {
      onSendCommands, ntStore := doOnSendCommands, store;
    }

    method RunDiscoverInternal(now: uint64)
      requires Valid() && address.None?
      modifies this`discoverStartTime, this`writeBuffer, this`pendingWrites, this`queue, this`enqueued, this`wire, txBuffer
      ensures Valid() && Greeted(old(View()), View(), now)
    {
      hide Accounted, WrittenDirect, Encode;
      NothingDirect(wire);
      var delta := Elapsed(now, discoverStartTime);
      if delta <= MESSAGE_TIMEOUT {
        return;
      }
      discoverStartTime := now;
      OneDirect(Discover());
      SendPacket(DISCOVER_ADDRESS, MESSAGE_DISCOVER, DISCOVER_ID, [], true);
    }

    method RunInterfacePacketIdInternal(now: uint64)
      requires Valid() && address.Some? && packetInterfaceId.None?
      modifies this`discoverStartTime, this`writeBuffer, this`pendingWrites, this`queue, this`enqueued, this`wire, txBuffer
      ensures Valid() && Greeted(old(View()), View(), now)
    {
      hide Accounted, WrittenDirect, Encode;
      NothingDirect(wire);
      var delta := Elapsed(now, discoverStartTime);
      if delta <= MESSAGE_TIMEOUT {
        return;
      }
      discoverStartTime := now;
      OneDirect(QueryInterface(address.value));
      SendPacket(address.value, MESSAGE_QUERY_INTERFACE, QUERY_INTERFACE_ID, [0x44, 0x45, 0x4B, 0x41, 0x00], true);
    }

    method RunFtdiConfigureInternal(now: uint64)
      requires Valid() && !configuredFtdiReset && address.Some? && packetInterfaceId.Some?
      modifies this`discoverStartTime, this`writeBuffer, this`pendingWrites, this`queue, this`enqueued, this`wire, txBuffer
      ensures Valid() && Greeted(old(View()), View(), now)
    {
      hide Accounted, WrittenDirect, Encode;
      NothingDirect(wire);
      var delta := Elapsed(now, discoverStartTime);
      if delta <= MESSAGE_TIMEOUT {
        return;
      }
      discoverStartTime := now;
      var packetId := (packetInterfaceId.value + 49) % 0x1_0000;
      OneDirect(FtdiConfigure(TargetOf(Model())));
      SendPacket(address.value, MESSAGE_FTDI_RESET_CONTROL, packetId, [1], true);
    }

    method RunSynchronousSteps(now: uint64)
      requires Valid()
      modifies this`discoverStartTime, this`writeBuffer, this`pendingWrites, this`queue, this`enqueued, this`wire, txBuffer
      ensures Valid() && Greeted(old(View()), View(), now)
    {
      hide Accounted, WrittenDirect;
      NothingDirect(wire);
      if address.None? {
        RunDiscoverInternal(now);
      } else if packetInterfaceId.None? {
        RunInterfacePacketIdInternal(now);
      } else if !configuredFtdiReset {
        RunFtdiConfigureInternal(now);
      }
    }

    method HasFinishedSynchronous() returns (finished: bool)
      ensures finished == Model().ftdiDone
    {
      return configuredFtdiReset;
    }

    method AllowSend() returns (allowed: bool)
      ensures allowed == (Model().sendState == ReadyToSend)
    {
      return sendState == ReadyToSend;
    }

    // ---- Replies ----

    /** The link, the hub state that drives it and the store they share; nothing of the link is part of the store. */
    ghost predicate Connected()
      reads this, onSendCommands
    {
      && Valid()
      && onSendCommands != null && ntStore != null
      && onSendCommands.currentHub == this && onSendCommands.ntStore == ntStore
      && ntStore.Valid() && this !in ntStore.Repr && txBuffer !in ntStore.Repr && stateMachine !in ntStore.Repr
      && onSendCommands !in ntStore.Repr
    }

    ghost function State(): Both
      requires Connected()
      reads this, onSendCommands, if ntStore == null then {} else ntStore.Repr
    {
      Both(View(), ntStore.Model())
    }

    /** With all three replies in, the callback enqueues a command batch and flushes it, in the middle of a reply. */
    method IssueWhenReady(io: Samples)
      requires Connected() && Ordered(Model())
      modifies this`writeBuffer, this`pendingWrites, this`queue, this`enqueued, this`wire, txBuffer,
               this`outstandingMessages, this`currentCount, this`sendState, ntStore.Repr
      ensures Connected()
      ensures State() == if Fires(old(Model())) then Fired(old(State()), io) else old(State())
    {
      hide Accounted, CommandPackets, CommandStore, Sent, ExpansionHubNtState.Valid, ExpansionHubNtState.Model,
           MotorNtState.Model, ServoNtState.Model;
      if sendState == WaitingForPackets {
        if haveBattery && haveBulk && haveModuleStatus {
          if onSendCommands != null {
            onSendCommands.SendCommands(this, TargetOf(Model()), canEnable, deviceReset, io);
          }
          sendState := WaitingForFinish;
        }
      }
    }

    /** The counter is a uint8_t and nothing guards the decrement. */
    method CheckForStateAdvance(io: Samples)
      requires Connected() && Ordered(Model())
      modifies this`writeBuffer, this`pendingWrites, this`queue, this`enqueued, this`wire, txBuffer,
               this`outstandingMessages, this`currentCount, this`sendState, ntStore.Repr
      ensures Connected() && State() == Advanced(old(State()), io)
    {
      hide Advanced, Accounted, Fired, ExpansionHubNtState.Valid, ExpansionHubNtState.Model, MotorNtState.Model,
           ServoNtState.Model;
      AdvanceCases(State(), io);
      outstandingMessages := (outstandingMessages - 1) % 0x100;
      IssueWhenReady(io);
      PendingEmpty(enqueued, queue, writeBuffer, pendingWrites, currentCount);
      if pendingWrites == [] && outstandingMessages == 0 {
        sendState := ReadyToSend;
      }
    }

    // ---- Received frames ----

    /** A frame that fails its checksum: once the interface is known it is charged like a refusal. */
    method HandleCorrupt(io: Samples, ghost now: uint64)
      requires Connected() && Ordered(Model())
      modifies this`writeBuffer, this`pendingWrites, this`queue, this`enqueued, this`wire, txBuffer,
               this`outstandingMessages, this`currentCount, this`sendState, ntStore.Repr
      ensures Connected() && State() == Handled(old(State()), Corrupt, io, now)
    {
      hide Handled, Advanced, Accounted, ExpansionHubNtState.Valid, ExpansionHubNtState.Model, MotorNtState.Model,
           ServoNtState.Model;
      CorruptEvent(State(), io, now);
      ntStore.CountCrcFailure();
      if packetInterfaceId.Some? {
        CheckForStateAdvance(io);
      }
    }

    /** A refusal: charged unless it answers one of the first two handshake frames. */
    method HandleNack(reference: byte, payload: seq<byte>, io: Samples, ghost now: uint64)
      requires Connected() && Ordered(Model()) && Readable(Model(), Nack(reference, payload))
      modifies this`writeBuffer, this`pendingWrites, this`queue, this`enqueued, this`wire, txBuffer,
               this`outstandingMessages, this`currentCount, this`sendState, ntStore.Repr
      ensures Connected() && State() == Handled(old(State()), Nack(reference, payload), io, now)
    {
      hide Handled, Advanced, Accounted, ExpansionHubNtState.Valid, ExpansionHubNtState.Model, MotorNtState.Model,
           ServoNtState.Model;
      NackEvent(State(), reference, payload, io, now);
      if reference != MESSAGE_DISCOVER && reference != MESSAGE_QUERY_INTERFACE {
        CheckForStateAdvance(io);
      }
      ntStore.CountNack();
    }

    /** The address is taken from the first discover reply that says it comes from the parent, and never again. */
    method HandleDiscover(source: byte, payload: seq<byte>, ghost io: Samples, now: uint64)
      requires Connected() && Ordered(Model()) && Readable(Model(), DiscoverReply(source, payload))
      modifies this`address, this`discoverStartTime, this`writeBuffer, this`pendingWrites, this`queue, this`enqueued,
               this`wire, txBuffer
      ensures Connected() && State() == Handled(old(State()), DiscoverReply(source, payload), io, now)
    {
      hide Handled, Synchronize, Accounted, ExpansionHubNtState.Valid, ExpansionHubNtState.Model, MotorNtState.Model,
           ServoNtState.Model;
      DiscoverEvent(State(), source, payload, io, now);
      if address.None? && payload[0] == 1 {
        address := Some(source);
        discoverStartTime := 0;
        RunSynchronousSteps(now);
      }
    }

    /** The last handshake step. */
    method HandleFtdiAck(ghost io: Samples, now: uint64)
      requires Connected() && Ordered(Model()) && Readable(Model(), FtdiAck)
      modifies this`configuredFtdiReset, this`discoverStartTime, this`writeBuffer, this`pendingWrites, this`queue,
               this`enqueued, this`wire, txBuffer
      ensures Connected() && State() == Handled(old(State()), FtdiAck, io, now)
    {
      hide Handled, Synchronize, Accounted, ExpansionHubNtState.Valid, ExpansionHubNtState.Model, MotorNtState.Model,
           ServoNtState.Model;
      FtdiEvent(State(), io, now);
      configuredFtdiReset := true;
      discoverStartTime := 0;
      RunSynchronousSteps(now);
    }

    /** The interface id is taken from the first reply to the interface query. */
    method HandleInterface(payload: seq<byte>, ghost io: Samples, now: uint64)
      requires Connected() && Ordered(Model()) && Readable(Model(), InterfaceReply(payload))
      modifies this`packetInterfaceId, this`discoverStartTime, this`writeBuffer, this`pendingWrites, this`queue,
               this`enqueued, this`wire, txBuffer
      ensures Connected() && State() == Handled(old(State()), InterfaceReply(payload), io, now)
    {
      hide Handled, Synchronize, Accounted, ExpansionHubNtState.Valid, ExpansionHubNtState.Model, MotorNtState.Model,
           ServoNtState.Model;
      InterfaceEvent(State(), payload, io, now);
      if packetInterfaceId.None? {
        packetInterfaceId := Some(ReadUint16(payload));
        discoverStartTime := 0;
        RunSynchronousSteps(now);
      }
    }

    /** The reply to a queued frame: what it says is noted and recorded, and the state advances. */
    method HandleReply(reference: byte, payload: seq<byte>, io: Samples, ghost now: uint64)
      requires Connected() && Ordered(Model()) && Readable(Model(), Reply(reference, payload))
      modifies this`haveBattery, this`haveBulk, this`haveModuleStatus, this`deviceReset,
               this`writeBuffer, this`pendingWrites, this`queue, this`enqueued, this`wire, txBuffer,
               this`outstandingMessages, this`currentCount, this`sendState, ntStore.Repr
      ensures Connected() && State() == Handled(old(State()), Reply(reference, payload), io, now)
    {
      hide Handled, RecordReply, Advanced, Accounted, ExpansionHubNtState.Valid, ExpansionHubNtState.Model,
           MotorNtState.Model, ServoNtState.Model;
      ReplyEvent(State(), reference, payload, io, now);
      if reference == MESSAGE_MODULE_STATUS {
        haveModuleStatus := true;
        deviceReset := payload[0] != 0;
      } else if reference == MESSAGE_BULK_INPUT {
        haveBulk := true;
      } else if reference == MESSAGE_BATTERY_VOLTAGE {
        haveBattery := true;
      }
      ntStore.Record(reference, payload, io);
      CheckForStateAdvance(io);
    }

    /** One frame the framer delivered: whatever it is, link and store follow `Handle`. */
    method HandlePayload(data: seq<byte>, crc: byte, io: Samples, now: uint64)
      requires Connected() && Ordered(Model()) && |data| >= MIN_FRAME && Readable(Model(), Parse(data, crc))
      modifies this`address, this`packetInterfaceId, this`configuredFtdiReset, this`discoverStartTime,
               this`haveBattery, this`haveBulk, this`haveModuleStatus, this`deviceReset, this`writeBuffer,
               this`pendingWrites, this`queue, this`enqueued, this`wire, txBuffer,
               this`outstandingMessages, this`currentCount, this`sendState, ntStore.Repr
      ensures Connected() && State() == Handled(old(State()), Parse(data, crc), io, now)
    {
      hide Handled, Readable, ExpansionHubNtState.Valid, ExpansionHubNtState.Model, MotorNtState.Model,
           ServoNtState.Model;
      if crc != PacketCrc(data) {
        HandleCorrupt(io, now);
        return;
      }
      var packetId := PacketId(data);
      var packetReferenceNumber := PacketReferenceNumber(data);
      var payload := PacketPayload(data);
      if packetId == NACK_ID {
        HandleNack(packetReferenceNumber, payload, io, now);
      } else if packetId == DISCOVER_ID + 0x8000 {
        HandleDiscover(PacketSourceAddress(data), payload, io, now);
      } else if packetId == ACK_ID && packetReferenceNumber == MESSAGE_FTDI_RESET_CONTROL {
        HandleFtdiAck(io, now);
      } else if packetId == QUERY_INTERFACE_ID + 0x8000 {
        HandleInterface(payload, io, now);
      } else {
        HandleReply(packetReferenceNumber, payload, io, now);
      }
    }

    /** Every delivery of a read, one after the other. */
    method HandleDeliveries(ds: seq<Delivery>, moments: seq<Moment>)
      requires Connected() && Ordered(Model())
      requires |moments| == |ds| && AllReadable(State(), ds, moments)
      modifies this`address, this`packetInterfaceId, this`configuredFtdiReset, this`discoverStartTime,
               this`haveBattery, this`haveBulk, this`haveModuleStatus, this`deviceReset, this`writeBuffer,
               this`pendingWrites, this`queue, this`enqueued, this`wire, txBuffer,
               this`outstandingMessages, this`currentCount, this`sendState, ntStore.Repr
      ensures Connected() && State() == HandledAll(old(State()), ds, moments)
    {
      hide Handled, Readable, ExpansionHubNtState.Valid, ExpansionHubNtState.Model, MotorNtState.Model,
           ServoNtState.Model;
      ghost var b := State();
      ReadablePrefix(b, ds, moments, 0);
      for i := 0 to |ds|
        invariant Connected() && Ordered(Model())
        invariant AllReadable(b, ds[..i], moments[..i]) && State() == HandledAll(b, ds[..i], moments[..i])
      {
        NextReadable(b, ds, moments, i);
        HandlePayload(ds[i].data, ds[i].crc, moments[i].io, moments[i].now);
      }
      assert ds[..|ds|] == ds && moments[..|ds|] == moments;
    }

    method FlushAfterRead()
      requires Connected()
      modifies this`pendingWrites, this`outstandingMessages, this`currentCount, this`queue, this`wire
      ensures Connected() && State() == FlushedBoth(old(State()))
    {
      hide FlushedTraffic, ExpansionHubNtState.Valid, ExpansionHubNtState.Model, MotorNtState.Model, ServoNtState.Model;
      Flush();
    }

    method HandleRead(ds: seq<Delivery>, moments: seq<Moment>)
      requires Connected() && Sound(Model())
      requires |moments| == |ds| && AllReadable(State(), ds, moments)
      modifies this`address, this`packetInterfaceId, this`configuredFtdiReset, this`discoverStartTime,
               this`haveBattery, this`haveBulk, this`haveModuleStatus, this`deviceReset, this`writeBuffer,
               this`pendingWrites, this`queue, this`enqueued, this`wire, txBuffer,
               this`outstandingMessages, this`currentCount, this`sendState, ntStore.Repr
      ensures Connected() && Sound(Model()) && State() == FlushedBoth(HandledAll(old(State()), ds, moments))
    {
      hide HandledAll, AllReadable, FlushedBoth, Ordered, ExpansionHubNtState.Valid, ExpansionHubNtState.Model,
           MotorNtState.Model, ServoNtState.Model;
      ReadIsSound(State(), ds, moments);
      HandleDeliveries(ds, moments);
      FlushAfterRead();
    }

    /** One read: the framer cuts the bytes into frames, each is handled, and what the window now allows is written. */
    method DoRead(readBuf: seq<byte>, moments: seq<Moment>)
      requires Connected() && Sound(Model()) && stateMachine.Valid()
      requires |moments| == |Feed(stateMachine.Model(), readBuf).delivered|
      requires AllReadable(State(), Feed(stateMachine.Model(), readBuf).delivered, moments)
      modifies stateMachine, this`address, this`packetInterfaceId, this`configuredFtdiReset, this`discoverStartTime,
               this`haveBattery, this`haveBulk, this`haveModuleStatus, this`deviceReset, this`writeBuffer,
               this`pendingWrites, this`queue, this`enqueued, this`wire, txBuffer,
               this`outstandingMessages, this`currentCount, this`sendState, ntStore.Repr
      ensures Connected() && Sound(Model()) && stateMachine.Valid()
      ensures stateMachine.Model() == Feed(old(stateMachine.Model()), readBuf).parser
      ensures var ds := Feed(old(stateMachine.Model()), readBuf).delivered;
              State() == if readBuf == [] then old(State()) else FlushedBoth(HandledAll(old(State()), ds, moments))
    {
      hide Feed, HandledAll, AllReadable, FlushedBoth, Sound, ExpansionHubNtState.Valid, ExpansionHubNtState.Model,
           MotorNtState.Model, ServoNtState.Model;
      FeedNothing(stateMachine.Model());
      if readBuf == [] {
        return;
      }
      var delivered := stateMachine.HandleBytes(readBuf);
      HandleRead(delivered, moments);
    }

    // ---- Transactions ----

    /** The buffer is cleared and the list of frame sizes is not; that is safe only because nothing is queued. */
    method StartTransaction(canDoEnable: bool)
      requires Valid() && queue == []
      modifies this`writeBuffer, this`currentCount, this`canEnable, this`haveBattery, this`haveBulk,
               this`haveModuleStatus, this`sendState, this`enqueued
      ensures Valid() && View() == Traffic(Protocol.StartTransaction(old(Model()), canDoEnable), queue, old(wire))
    {
      hide Accounted, Sizes, EncodeAll;
      NothingAccounted(enqueued, queue, writeBuffer, pendingWrites, currentCount);
      ghost var l := Protocol.StartTransaction(Model(), canDoEnable);
      writeBuffer := [];
      currentCount := 0;
      canEnable := canDoEnable;
      haveBattery := false;
      haveBulk := false;
      haveModuleStatus := false;
      sendState := WaitingForPackets;
      enqueued := queue;
      assert Model() == l;
    }

    method Recover()
      requires Valid() && stateMachine.Valid()
      modifies this`outstandingMessages, this`writeBuffer, this`pendingWrites, this`currentCount, this`queue,
               this`enqueued, stateMachine
      ensures Valid() && View() == Traffic(Protocol.Recover(old(Model())), [], old(wire))
      ensures stateMachine.Valid() && stateMachine.Model() == Idle(old(stateMachine.bytesToReceive), 0)
    {
      hide Accounted, Sizes, EncodeAll, ExpansionHubNtState.Valid, ExpansionHubNtState.Model, MotorNtState.Model,
           ServoNtState.Model;
      AccountedAfresh();
      stateMachine.Reset();
      outstandingMessages := 0;
      writeBuffer := [];
      pendingWrites := [];
      currentCount := 0;
      queue := [];
      enqueued := [];
    }
  }

  class ExpansionHubState {
    const ntStore: ExpansionHubNtState
    var currentHub: ExpansionHubSerial?
    var lastLoop: uint64

    constructor (store: ExpansionHubNtState, now: uint64)
      ensures ntStore == store && currentHub == null && lastLoop == now
    {
      ntStore := store;
      currentHub := null;
      lastLoop := now;
    }

    /** The hub is the current one, shares nothing with the store, and commands for it go to this target. */
    ghost predicate Sending(hub: ExpansionHubSerial, t: Target)
      reads this, hub
    {
      && currentHub == hub && hub.Valid() && hub.HasTarget(t)
      && ntStore.Valid() && hub !in ntStore.Repr && hub.txBuffer !in ntStore.Repr && this !in ntStore.Repr
    }

    method ComputePowers(io: Samples) returns (motorPowers: seq<(real, int)>)
      requires ntStore.Valid()
      ensures motorPowers == MotorPowers(io, ntStore.Model().lastBattery)
    {
      motorPowers := [];
      for i := 0 to NUM_MOTORS
        invariant motorPowers == MotorPowers(io, ntStore.lastBattery)[..i]
      {
        var power, leader := ntStore.motors[i].ComputeMotorPower(ntStore.lastBattery, io.motors[i]);
        motorPowers := motorPowers + [(power, leader)];
      }
    }

    /** A follower is sent its leader's power; there is no chaining, and no leader means no power. */
    method SendPowers(hub: ExpansionHubSerial, ghost t: Target, io: Samples)
      requires Sending(hub, t)
      modifies hub`writeBuffer, hub`pendingWrites, hub`queue, hub`enqueued, hub`wire, hub.txBuffer
      ensures Sending(hub, t) && ntStore.Model() == old(ntStore.Model())
      ensures hub.Queued(Flatten(PowerPhase(io, old(ntStore.Model()).lastBattery, t)))
    {
      hide MotorPowers, PowerPhase, Queue, Flatten, Accounted, Enqueue, ExpansionHubNtState.Valid,
           ExpansionHubNtState.Model, MotorNtState.Model, ServoNtState.Model;
      ghost var v, st := hub.View(), ntStore.Model();
      ghost var xs := PowerPhase(io, st.lastBattery, t);
      PhaseStarts(v, xs);
      var motorPowers := ComputePowers(io);
      for i := 0 to NUM_MOTORS
        invariant Sending(hub, t) && ntStore.Model() == st
        invariant hub.View() == Queue(v, Flatten(xs[..i]))
      {
        PowerStep(io, st.lastBattery, t, i);
        if motorPowers[i].1 < 0 {
          hub.SendMotorConstantPower(t, i, motorPowers[i].0);
        } else if motorPowers[i].1 < 4 {
          hub.SendMotorConstantPower(t, i, motorPowers[motorPowers[i].1].0);
        } else {
          hub.SendMotorConstantPower(t, i, 0.0);
        }
        PhaseGrows(v, xs, i);
      }
      assert xs[..NUM_MOTORS] == xs;
    }

    method SendCurrents(hub: ExpansionHubSerial, ghost t: Target)
      requires Sending(hub, t)
      modifies hub`writeBuffer, hub`pendingWrites, hub`queue, hub`enqueued, hub`wire, hub.txBuffer
      ensures Sending(hub, t) && ntStore.Model() == old(ntStore.Model())
      ensures hub.Queued(Flatten(CurrentPhase(t)))
    {
      hide Queue, Flatten, Accounted, Enqueue, ExpansionHubNtState.Valid, ExpansionHubNtState.Model,
           MotorNtState.Model, ServoNtState.Model;
      ghost var v, xs := hub.View(), CurrentPhase(t);
      PhaseStarts(v, xs);
      for i := 0 to NUM_MOTORS
        invariant Sending(hub, t) && ntStore.Model() == old(ntStore.Model())
        invariant hub.View() == Queue(v, Flatten(xs[..i]))
      {
        hub.SendMotorCurrentRequest(t, i);
        PhaseGrows(v, xs, i);
      }
      assert xs[..NUM_MOTORS] == xs;
    }

    method SendModes(hub: ExpansionHubSerial, ghost t: Target, io: Samples)
      requires Sending(hub, t)
      modifies hub`writeBuffer, hub`pendingWrites, hub`queue, hub`enqueued, hub`wire, hub.txBuffer, ntStore.Repr
      ensures Sending(hub, t) && ntStore.Model() == ModesAttempted(old(ntStore.Model()), io, NUM_MOTORS)
      ensures hub.Queued(Flatten(ModePhase(old(ntStore.Model()), io, t)))
    {
      hide Queue, Flatten, Accounted, Enqueue, Wanted, ModeAttempted, ModesAttempted, ModePhase,
           ExpansionHubNtState.Valid, ExpansionHubNtState.Model, MotorNtState.Model, ServoNtState.Model;
      ghost var v, st := hub.View(), ntStore.Model();
      ghost var xs := ModePhase(st, io, t);
      PhaseStarts(v, xs);
      ModeStep(st, io, t, 0);
      for i := 0 to NUM_MOTORS
        invariant Sending(hub, t) && hub.View() == Queue(v, Flatten(xs[..i]))
        invariant ntStore.Model() == ModesAttempted(st, io, i)
      {
        ModeStep(st, io, t, i);
        NothingQueued(hub.View());
        var sendFloatOn0 := ntStore.GetFloatOn0(i, io.motors[i].floatOn0);
        if sendFloatOn0.Some? {
          hub.SendMotorMode(t, i, sendFloatOn0.value);
        }
        PhaseGrows(v, xs, i);
      }
      assert xs[..NUM_MOTORS] == xs;
    }

    method SendEnables(hub: ExpansionHubSerial, ghost t: Target, canEnable: bool, io: Samples)
      requires Sending(hub, t)
      modifies hub`writeBuffer, hub`pendingWrites, hub`queue, hub`enqueued, hub`wire, hub.txBuffer, ntStore.Repr
      ensures Sending(hub, t) && ntStore.Model() == EnablesAttempted(old(ntStore.Model()), io, canEnable, NUM_MOTORS)
      ensures hub.Queued(Flatten(EnablePhase(old(ntStore.Model()), io, canEnable, t)))
    {
      hide Queue, Flatten, Accounted, Enqueue, Wanted, EnableAttempted, EnablesAttempted, EnablePhase,
           ExpansionHubNtState.Valid, ExpansionHubNtState.Model, MotorNtState.Model, ServoNtState.Model;
      ghost var v, st := hub.View(), ntStore.Model();
      ghost var xs := EnablePhase(st, io, canEnable, t);
      PhaseStarts(v, xs);
      EnableStep(st, io, canEnable, t, 0);
      for i := 0 to NUM_MOTORS
        invariant Sending(hub, t) && hub.View() == Queue(v, Flatten(xs[..i]))
        invariant ntStore.Model() == EnablesAttempted(st, io, canEnable, i)
      {
        EnableStep(st, io, canEnable, t, i);
        NothingQueued(hub.View());
        var sendEnable := ntStore.GetMotorEnable(i, canEnable, io.motors[i].enabled);
        if sendEnable.Some? {
          hub.SendMotorEnable(t, i, sendEnable.value);
        }
        PhaseGrows(v, xs, i);
      }
      assert xs[..NUM_MOTORS] == xs;
    }

    method SendPeriods(hub: ExpansionHubSerial, ghost t: Target, io: Samples)
      requires Sending(hub, t)
      modifies hub`writeBuffer, hub`pendingWrites, hub`queue, hub`enqueued, hub`wire, hub.txBuffer, ntStore.Repr
      ensures Sending(hub, t) && ntStore.Model() == PeriodsAttempted(old(ntStore.Model()), io, NUM_SERVOS)
      ensures hub.Queued(Flatten(PeriodPhase(old(ntStore.Model()), io, t)))
    {
      hide Queue, Flatten, Accounted, Enqueue, Wanted, PeriodAttempted, PeriodsAttempted, PeriodPhase,
           ExpansionHubNtState.Valid, ExpansionHubNtState.Model, MotorNtState.Model, ServoNtState.Model;
      ghost var v, st := hub.View(), ntStore.Model();
      ghost var xs := PeriodPhase(st, io, t);
      PhaseStarts(v, xs);
      PeriodStep(st, io, t, 0);
      for i := 0 to NUM_SERVOS
        invariant Sending(hub, t) && hub.View() == Queue(v, Flatten(xs[..i]))
        invariant ntStore.Model() == PeriodsAttempted(st, io, i)
      {
        PeriodStep(st, io, t, i);
        NothingQueued(hub.View());
        var servoConfig := ntStore.GetFramePeriod(i, io.servos[i].framePeriod);
        if servoConfig.Some? {
          hub.SendServoConfiguration(t, i, servoConfig.value % 0x1_0000);
        }
        PhaseGrows(v, xs, i);
      }
      assert xs[..NUM_SERVOS] == xs;
    }

    method SendServoOns(hub: ExpansionHubSerial, ghost t: Target, canEnable: bool, io: Samples)
      requires Sending(hub, t)
      modifies hub`writeBuffer, hub`pendingWrites, hub`queue, hub`enqueued, hub`wire, hub.txBuffer, ntStore.Repr
      ensures Sending(hub, t) && ntStore.Model() == ServoOnsAttempted(old(ntStore.Model()), io, canEnable, NUM_SERVOS)
      ensures hub.Queued(Flatten(ServoOnPhase(old(ntStore.Model()), io, canEnable, t)))
    {
      hide Queue, Flatten, Accounted, Enqueue, Wanted, ServoOnAttempted, ServoOnsAttempted, ServoOnPhase,
           ExpansionHubNtState.Valid, ExpansionHubNtState.Model, MotorNtState.Model, ServoNtState.Model;
      ghost var v, st := hub.View(), ntStore.Model();
      ghost var xs := ServoOnPhase(st, io, canEnable, t);
      PhaseStarts(v, xs);
      ServoOnStep(st, io, canEnable, t, 0);
      for i := 0 to NUM_SERVOS
        invariant Sending(hub, t) && hub.View() == Queue(v, Flatten(xs[..i]))
        invariant ntStore.Model() == ServoOnsAttempted(st, io, canEnable, i)
      {
        ServoOnStep(st, io, canEnable, t, i);
        NothingQueued(hub.View());
        var sendEnable := ntStore.GetServoEnable(i, canEnable, io.servos[i].enabled);
        if sendEnable.Some? {
          hub.SendServoEnable(t, i, sendEnable.value);
        }
        PhaseGrows(v, xs, i);
      }
      assert xs[..NUM_SERVOS] == xs;
    }

    /** The command batch: a device reset forgets every cache, then power, currents and the cached commands go out. */
    method SendCommands(hub: ExpansionHubSerial, ghost t: Target, canEnable: bool, deviceReset: bool, io: Samples)
      requires Sending(hub, t)
      modifies hub`writeBuffer, hub`pendingWrites, hub`queue, hub`enqueued, hub`wire, hub.txBuffer, ntStore.Repr,
               hub`outstandingMessages, hub`currentCount
      ensures Sending(hub, t)
      ensures ntStore.Model() == CommandStore(old(ntStore.Model()), io, canEnable, deviceReset)
      ensures hub.View() == Sent(old(hub.View()), CommandPackets(old(ntStore.Model()), io, canEnable, deviceReset, t))
    {
      hide Queue, Flatten, Accounted, Enqueue, CommandPackets, CommandStore, CommandBase, ForgetAll, PowerPhase,
           CurrentPhase,
           ModePhase, EnablePhase, PeriodPhase, ServoOnPhase, ModesAttempted, EnablesAttempted, PeriodsAttempted,
           ServoOnsAttempted, FlushedTraffic, ExpansionHubNtState.Valid, ExpansionHubNtState.Model, MotorNtState.Model,
           ServoNtState.Model;
      CommandsQueued(hub.View(), CommandBase(ntStore.Model(), deviceReset), io, canEnable, t);
      BatchFromBase(ntStore.Model(), io, canEnable, deviceReset, t);
      if deviceReset {
        ntStore.ForceResetAll();
      }
      SendPowers(hub, t, io);
      SendCurrents(hub, t);
      SendModes(hub, t, io);
      SendEnables(hub, t, canEnable, io);
      SendPeriods(hub, t, io);
      SendServoOns(hub, t, canEnable, io);
      hub.Flush();
    }

    // ---- The opening batch ----

    method SendResets(hub: ExpansionHubSerial, ghost t: Target, io: Samples)
      requires Sending(hub, t)
      modifies hub`writeBuffer, hub`pendingWrites, hub`queue, hub`enqueued, hub`wire, hub.txBuffer, ntStore.Repr
      ensures Sending(hub, t) && ntStore.Model() == InitialStore(old(ntStore.Model()), io)
      ensures hub.Queued(Flatten(ResetPhase(InitialStore(old(ntStore.Model()), io), t)))
    {
      hide Queue, Flatten, Accounted, Enqueue, ResetObserved, ResetsObserved, InitialStore, ResetPhase,
           ExpansionHubNtState.Valid, ExpansionHubNtState.Model, MotorNtState.Model, ServoNtState.Model;
      ghost var v, st := hub.View(), ntStore.Model();
      ghost var xs := ResetPhase(InitialStore(st, io), t);
      PhaseStarts(v, xs);
      ResetStep(st, io, t, 0);
      for i := 0 to NUM_MOTORS
        invariant Sending(hub, t) && hub.View() == Queue(v, Flatten(xs[..i]))
        invariant ntStore.Model() == ResetsObserved(st, io, i)
      {
        ResetStep(st, io, t, i);
        NothingQueued(hub.View());
        var wanted := ntStore.CheckReset(i, io.motors[i]);
        if wanted {
          hub.SendEncoderResetRequest(t, i);
        }
        PhaseGrows(v, xs, i);
      }
      assert xs[..NUM_MOTORS] == xs;
    }

    method SendPulses(hub: ExpansionHubSerial, ghost t: Target, io: Samples)
      requires Sending(hub, t)
      modifies hub`writeBuffer, hub`pendingWrites, hub`queue, hub`enqueued, hub`wire, hub.txBuffer
      ensures Sending(hub, t) && ntStore.Model() == old(ntStore.Model())
      ensures hub.Queued(Flatten(PulsePhase(io, t)))
    {
      hide Queue, Flatten, Accounted, Enqueue, ExpansionHubNtState.Valid, ExpansionHubNtState.Model,
           MotorNtState.Model, ServoNtState.Model;
      ghost var v, xs := hub.View(), PulsePhase(io, t);
      PhaseStarts(v, xs);
      for i := 0 to NUM_SERVOS
        invariant Sending(hub, t) && ntStore.Model() == old(ntStore.Model())
        invariant hub.View() == Queue(v, Flatten(xs[..i]))
      {
        hub.SendServoPulseWidth(t, i, io.servos[i].pulseWidth % 0x1_0000);
        PhaseGrows(v, xs, i);
      }
      assert xs[..NUM_SERVOS] == xs;
    }

    /** The opening batch; the keep-alive goes first, because recovery needs it. */
    method SendInitial(hub: ExpansionHubSerial, ghost t: Target, io: Samples)
      requires Sending(hub, t)
      modifies hub`writeBuffer, hub`pendingWrites, hub`queue, hub`enqueued, hub`wire, hub.txBuffer, ntStore.Repr,
               hub`outstandingMessages, hub`currentCount
      ensures Sending(hub, t)
      ensures ntStore.Model() == InitialStore(old(ntStore.Model()), io)
      ensures hub.View() == Sent(old(hub.View()), InitialPackets(old(ntStore.Model()), io, t))
    {
      hide Queue, Flatten, Accounted, Enqueue, InitialStore, InitialPackets, ResetPhase, PulsePhase, FlushedTraffic,
           ExpansionHubNtState.Valid, ExpansionHubNtState.Model, MotorNtState.Model, ServoNtState.Model;
      InitialQueued(hub.View(), ntStore.Model(), io, t);
      hub.SendKeepAlive(t);
      hub.GetModuleStatus(t);
      SendResets(hub, t, io);
      hub.SendBatteryRequest(t);
      hub.SendBulkInput(t);
      SendPulses(hub, t, io);
      hub.Flush();
    }

    // ---- The timer ----

    /** What the timer and the callbacks need of a device: it is connected to this state and nothing else. */
    ghost predicate Driving(hub: ExpansionHubSerial)
      reads this, hub, hub.onSendCommands, hub.stateMachine
    {
      && currentHub == hub && hub.Connected() && hub.onSendCommands == this && hub.stateMachine.Valid()
    }

    /** A recovery when the last transaction has not ended, and a new one. */
    method Restart(hub: ExpansionHubSerial, canEnable: bool)
      requires hub.Valid() && hub.stateMachine.Valid() && (hub.sendState == ReadyToSend ==> hub.queue == [])
      modifies hub, hub.stateMachine
      ensures hub.Valid() && hub.stateMachine.Valid() && hub.View() == BegunTraffic(old(hub.View()), canEnable)
      ensures hub.ntStore == old(hub.ntStore) && hub.onSendCommands == old(hub.onSendCommands)
      ensures if old(hub.sendState) == ReadyToSend then hub.stateMachine.Model() == old(hub.stateMachine.Model())
              else hub.stateMachine.Model() == Idle(old(hub.stateMachine.bytesToReceive), 0)
    {
      hide Accounted;
      var allowSend := hub.AllowSend();
      if !allowSend {
        hub.Recover();
      }
      hub.StartTransaction(canEnable);
    }

    method OpenTransaction(hub: ExpansionHubSerial, ghost t: Target, canEnable: bool, io: Samples)
      requires Driving(hub) && hub.HasTarget(t) && (hub.sendState == ReadyToSend ==> hub.queue == [])
      modifies hub, hub.txBuffer, hub.stateMachine, ntStore.Repr
      ensures Driving(hub) && hub.State() == Opened(Begun(old(hub.State()), canEnable), io, t)
    {
      hide Accounted, Sent, InitialPackets, InitialStore, ExpansionHubNtState.Valid, ExpansionHubNtState.Model,
           MotorNtState.Model, ServoNtState.Model;
      Restart(hub, canEnable);
      SendInitial(hub, t, io);
    }

    /** The tick of a device: a handshake step, a missed loop, or a new transaction. */
    method UpdateHub(hub: ExpansionHubSerial, canEnable: bool, io: Samples, now: uint64)
      requires Driving(hub) && Sound(hub.Model()) && TickSafe(hub.Model())
      modifies this`lastLoop, hub, hub.txBuffer, hub.stateMachine, ntStore.Repr
      ensures Driving(hub) && lastLoop == UpdatedLoop(old(hub.Model()), now, old(lastLoop))
      ensures hub.State() == Updated(old(hub.State()), io, canEnable, now, old(lastLoop))
    {
      hide Updated, Synchronize, Opened, Begun, Accounted, ExpansionHubNtState.Valid, ExpansionHubNtState.Model,
           MotorNtState.Model, ServoNtState.Model;
      UpdateInSteps(hub.State(), io, canEnable, now, lastLoop);
      var finished := hub.HasFinishedSynchronous();
      if !finished {
        hub.RunSynchronousSteps(now);
        return;
      }
      var delta := Elapsed(now, lastLoop);
      var allowSend := hub.AllowSend();
      if !allowSend && delta < RECOVERY_TIMEOUT {
        ntStore.CountMissedLoop();
        return;
      }
      lastLoop := now;
      OpenTransaction(hub, TargetOf(hub.Model()), canEnable, io);
    }

    method OnUpdate(canEnable: bool, io: Samples, now: uint64)
      requires currentHub != null ==>
                 && Driving(currentHub) && Sound(currentHub.Model()) && TickSafe(currentHub.Model())
      modifies this`lastLoop, currentHub,
               if currentHub == null then {} else {currentHub.txBuffer, currentHub.stateMachine} + ntStore.Repr
      ensures currentHub == old(currentHub)
      ensures currentHub == null ==> lastLoop == old(lastLoop)
      ensures currentHub != null ==>
                && Driving(currentHub) && Sound(currentHub.Model()) && TickSafe(currentHub.Model())
                && lastLoop == UpdatedLoop(old(currentHub.Model()), now, old(lastLoop))
                && currentHub.State() == Updated(old(currentHub.State()), io, canEnable, now, old(lastLoop))
    {
      hide Updated, UpdatedLoop, Sound, TickSafe, ExpansionHubNtState.Valid, ExpansionHubNtState.Model, MotorNtState.Model,
           ServoNtState.Model;
      if currentHub == null {
        return;
      }
      UpdateIsSound(currentHub.State(), io, canEnable, now, lastLoop);
      UpdateHub(currentHub, canEnable, io, now);
    }

    // ---- Devices ----

    /** A new device starts from empty caches and zeroed counters; what the link has done so far stays. */
    method OnDeviceAdded(hub: ExpansionHubSerial)
      requires ntStore.Valid() && hub.Valid() && hub.stateMachine.Valid()
      requires this !in ntStore.Repr && hub !in ntStore.Repr
      requires hub.txBuffer !in ntStore.Repr && hub.stateMachine !in ntStore.Repr
      modifies this`currentHub, hub`ntStore, hub`onSendCommands, ntStore.Repr
      ensures Driving(hub)
      ensures hub.State() == Both(old(hub.View()), Afresh(old(ntStore.Model())))
    {
      hide ForgetAll, Accounted, ExpansionHubNtState.Valid, ExpansionHubNtState.Model, MotorNtState.Model,
           ServoNtState.Model;
      currentHub := hub;
      ntStore.StartAfresh();
      hub.SetCallbacks(this, ntStore);
    }

    static method NewDevice(path: string, now: uint64) returns (hub: ExpansionHubSerial)
      ensures fresh(hub) && fresh(hub.txBuffer) && fresh(hub.stateMachine) && hub.serialPath == path
      ensures hub.Valid() && hub.stateMachine.Valid() && hub.View() == NewTraffic(now)
    {
      hub := new ExpansionHubSerial(path);
      hub.RunSynchronousSteps(now);
    }

    /** A device on a bus that already has one is ignored; a new one is asked who it is before it is connected. */
    method AddDevice(path: string, now: uint64)
      requires ntStore.Valid() && this !in ntStore.Repr
      modifies this`currentHub, ntStore.Repr
      ensures old(currentHub) != null ==> currentHub == old(currentHub) && ntStore.Model() == old(ntStore.Model())
      ensures old(currentHub) == null ==>
                && currentHub != null && fresh(currentHub) && currentHub.serialPath == path && Driving(currentHub)
                && currentHub.State() == Attached(old(ntStore.Model()), now)
    {
      hide NewTraffic, ForgetAll, Accounted, ExpansionHubNtState.Valid, ExpansionHubNtState.Model, MotorNtState.Model,
           ServoNtState.Model;
      if currentHub != null {
        return;
      }
      var hub := NewDevice(path, now);
      OnDeviceAdded(hub);
    }

    /** A device goes only when its own path is removed. */
    method OnDeviceRemoved(path: string)
      modifies this`currentHub
      ensures currentHub == if old(currentHub) != null && old(currentHub).serialPath == path then null else old(currentHub)
    {
      if currentHub != null && path == currentHub.serialPath {
        currentHub := null;
      }
    }
  }
}
