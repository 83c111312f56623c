/** The main loop of the T3D servo driver: what it sends to the drive on
    each pass, given the HAL pins, the clock and the answers of the bus. */
module ServoLoop {
  import opened Common
  import opened ServoModbus

  /** The input pins read on one pass. */
  datatype Pins = Pins(
    enable: bool,
    spindleSpeed: real,
    on: bool,
    holdMotor: bool,
    forward: bool,
    reverse: bool,
    resetAlarm: bool)

  /** The library results met on one pass, in the order the calls are made. */
  datatype LoopReplies = LoopReplies(
    offRet: int,
    resetRet: int,
    init: InitReplies,
    motorRet: int,
    speedRet: int,
    alarmRet: int,
    alarmValue: nat)

  predicate WellFormed(rp: LoopReplies)
  {
    rp.init.alarmValue < 0x1_0000 && rp.alarmValue < 0x1_0000
  }

  datatype Outcome = Outcome(state: ServoState, sent: seq<Request>)

  datatype LoopOutcome = LoopOutcome(state: ServoState, device: Option<string>, sent: seq<Request>)

  // ---------------------------------------------------------------------
  // What one helper does

  /** The control word for the pins: off unless the motor is on; exactly one
      of forward and reverse selects that direction; otherwise the hold pin
      chooses stop over off. */
  function MotorCommand(on: bool, hold: bool, forward: bool, reverse: bool): (c: int)
    ensures !on ==> c == CmdOff
    ensures on && forward && !reverse ==> c == CmdForward
    ensures on && reverse && !forward ==> c == CmdReverse
    ensures on && forward == reverse ==> c == (if hold then CmdStop else CmdOff)
  {
    if on then
      var command := if hold then CmdStop else CmdOff;
      if forward && !reverse then CmdForward
      else if reverse && !forward then CmdReverse
      else command
    else CmdOff
  }

  /** The four control words are distinct, so the drive can tell every
      request apart; `Direction` reads back which one was sent. */
  function Direction(c: int): (d: int)
  {
    if c == CmdForward then 1 else if c == CmdReverse then -1 else 0
  }

  lemma MotorCommandDirection(on: bool, hold: bool, forward: bool, reverse: bool)
    ensures Direction(MotorCommand(on, hold, forward, reverse)) ==
      (if on && forward && !reverse then 1 else if on && reverse && !forward then -1 else 0)
    ensures (MotorCommand(on, hold, forward, reverse) == CmdStop) <==> (on && hold && forward == reverse)
  {
  }

  /** send_motor_command: write the control word only when it differs from
      the last one the drive accepted, and remember it only on success. */
  function SendCommand(s: ServoState, cmd: int, ret: int): (o: Outcome)
    ensures cmd == s.lastCommand ==> o == Outcome(s, [])
    ensures cmd != s.lastCommand ==> o.sent == [WriteRegister(RegControl, cmd)]
    ensures cmd != s.lastCommand && ret >= 0 ==> o.state == s.(lastCommand := cmd)
    ensures cmd != s.lastCommand && ret < 0 ==> o.state == Failure(s)
    ensures Consistent(s) ==> Consistent(o.state)
  {
    if cmd != s.lastCommand then
      var s1 := AfterCall(s, ret);
      Outcome(if ret >= 0 then s1.(lastCommand := cmd) else s1, [WriteRegister(RegControl, cmd)])
    else Outcome(s, [])
  }

  /** The RPM register value for a speed: the conversion of the speed to an
      unsigned 16-bit integer, truncating toward zero. */
  function SpeedRegister(speed: real): (v: nat)
    ensures v < 0x1_0000
    ensures 0.0 <= speed < 65536.0 ==> v as real <= speed < v as real + 1.0
  {
    TruncToward0(speed) % 0x1_0000
  }

  /** update_speed: like the control word, the speed is written only when it
      changed and remembered only when the write succeeded. */
  function UpdateSpeedStep(s: ServoState, speed: real, ret: int): (o: Outcome)
    ensures speed == s.lastSpeed ==> o == Outcome(s, [])
    ensures speed != s.lastSpeed ==> o.sent == [WriteRegister(RegRpm, SpeedRegister(speed))]
    ensures speed != s.lastSpeed && ret >= 0 ==> o.state == s.(lastSpeed := speed)
    ensures speed != s.lastSpeed && ret < 0 ==> o.state == Failure(s)
    ensures Consistent(s) ==> Consistent(o.state)
  {
    if speed != s.lastSpeed then
      var s1 := AfterCall(s, ret);
      Outcome(if ret >= 0 then s1.(lastSpeed := speed) else s1, [WriteRegister(RegRpm, SpeedRegister(speed))])
    else Outcome(s, [])
  }

  /** check_on_status: a change of the on pin is remembered, and switching
      on gives the connection a fresh set of attempts. */
  function CheckOn(s: ServoState, on: bool): (r: ServoState)
    ensures r.lastOnStatus == on
    ensures on && !s.lastOnStatus ==> r.attempts == 0
    ensures !(on && !s.lastOnStatus) ==> r.attempts == s.attempts
    ensures r.(lastOnStatus := s.lastOnStatus, attempts := s.attempts) == s
    ensures Consistent(s) ==> Consistent(r)
  {
    if s.lastOnStatus != on then
      var s1 := s.(lastOnStatus := on);
      if on then s1.(attempts := 0) else s1
    else s
  }

  /** watch_reset_alert_signal: while the reset pin is high, every pass
      writes the reset value. */
  function ResetAlarmStep(s: ServoState, reset: bool, ret: int): (o: Outcome)
    ensures !reset ==> o == Outcome(s, [])
    ensures reset ==> o == Outcome(AfterCall(s, ret), [WriteRegister(RegResetAlarm, ResetAlarmValue)])
  {
    if reset then Outcome(AfterCall(s, ret), [WriteRegister(RegResetAlarm, ResetAlarmValue)]) else Outcome(s, [])
  }

  /** read_alarm: a successful read that differs from the known code updates
      the code and the flag together. */
  function ReadAlarmStep(s: ServoState, ret: int, value: nat): (o: Outcome)
    requires value < 0x1_0000
    ensures o.sent == [ReadInputRegister(RegAlarm)]
    ensures ret < 0 ==> o.state == Failure(s)
    ensures ret >= 0 ==> o.state == s.(alarmCode := value, alarmFlag := if value == s.alarmCode then s.alarmFlag else value > 0)
    ensures Consistent(s) ==> Consistent(o.state)
  {
    var s1 := AfterCall(s, ret);
    if ret >= 0 && s1.alarmCode != value then
      Outcome(s1.(alarmCode := value, alarmFlag := value > 0), [ReadInputRegister(RegAlarm)])
    else Outcome(s1, [ReadInputRegister(RegAlarm)])
  }

  /** The clock test of the main loop, on unsigned 64-bit nanoseconds. */
  predicate ReadDue(now: int, last: int): (r: bool)
    ensures 0 <= last <= now < U64 ==> (r <==> now - last >= ReadCyclePeriod)
    ensures 0 <= now < last < U64 ==> (r <==> now + U64 - last >= ReadCyclePeriod)
  {
    (now - last) % U64 >= ReadCyclePeriod
  }

  /** A request that moves the motor. */
  predicate IsMotion(r: Request)
  {
    r.WriteRegister? && (r.reg == RegControl || r.reg == RegRpm)
  }

  // ---------------------------------------------------------------------
  // One pass of the main loop

  /** servo_write: the control word, then the speed. */
  function ServoWriteStep(s: ServoState, pins: Pins, rp: LoopReplies): (o: Outcome)
    ensures Consistent(s) ==> Consistent(o.state)
    ensures o.state.lastOnStatus == s.lastOnStatus && o.state.hasContext == s.hasContext
    ensures o.state.lastReadTime == s.lastReadTime
  {
    var motor := SendCommand(s, MotorCommand(pins.on, pins.holdMotor, pins.forward, pins.reverse), rp.motorRet);
    var speed := UpdateSpeedStep(motor.state, pins.spindleSpeed, rp.speedRet);
    Outcome(speed.state, motor.sent + speed.sent)
  }

  /** The writes and the read after a successful connection. */
  function ConnectedStep(s: ServoState, pins: Pins, now: int, rp: LoopReplies): (o: Outcome)
    requires WellFormed(rp)
    ensures Consistent(s) ==> Consistent(o.state)
    ensures o.state.lastOnStatus == s.lastOnStatus && o.state.hasContext == s.hasContext
  {
    var w := ServoWriteStep(s, pins, rp);
    if ReadDue(now, s.lastReadTime) then
      var read := ReadAlarmStep(w.state, rp.alarmRet, rp.alarmValue);
      Outcome(read.state.(lastReadTime := now), w.sent + read.sent)
    else w
  }

  /** One pass of main_loop. */
  function Iteration(s: ServoState, device: Option<string>, c: Settings, pins: Pins, now: int, rp: LoopReplies): (o: LoopOutcome)
    requires WellFormed(rp)
    ensures !pins.enable && !s.inited ==> o == LoopOutcome(s, device, [])
    ensures !pins.enable && s.inited ==>
      o.sent == [WriteRegister(RegControl, CmdOff)] && !o.state.inited && o.state.attempts == 0
      && o.state.lastCommand == s.lastCommand && o.device == device
    ensures Consistent(s) ==> Consistent(o.state)
  {
    if !pins.enable then
      if s.inited then
        LoopOutcome(AfterCall(s, rp.offRet).(inited := false, attempts := 0), device, [WriteRegister(RegControl, CmdOff)])
      else LoopOutcome(s, device, [])
    else EnabledStep(s, device, c, pins, now, rp)
  }

  /** A pass with the component enabled: reset request, on-pin check,
      connection, then the writes and the read. */
  function EnabledStep(s: ServoState, device: Option<string>, c: Settings, pins: Pins, now: int, rp: LoopReplies): (o: LoopOutcome)
    requires WellFormed(rp)
    ensures Consistent(s) ==> Consistent(o.state)
    ensures o.state.lastOnStatus == pins.on
  {
    var reset := ResetAlarmStep(s, pins.resetAlarm, rp.resetRet);
    var init := Init(CheckOn(reset.state, pins.on), device, c, rp.init);
    if init.ret < 0 then LoopOutcome(init.state, init.device, reset.sent + init.sent)
    else
      var rest := ConnectedStep(init.state, pins, now, rp);
      LoopOutcome(rest.state, init.device, reset.sent + init.sent + rest.sent)
  }

  /** Nothing moves the motor on a pass whose connection attempt failed. */
  lemma NoMotionWithoutConnection(s: ServoState, device: Option<string>, c: Settings, pins: Pins, now: int, rp: LoopReplies)
    requires WellFormed(rp) && pins.enable
    requires Init(CheckOn(ResetAlarmStep(s, pins.resetAlarm, rp.resetRet).state, pins.on), device, c, rp.init).ret < 0
    ensures forall k :: 0 <= k < |Iteration(s, device, c, pins, now, rp).sent| ==>
      !IsMotion(Iteration(s, device, c, pins, now, rp).sent[k])
  {
    var reset := ResetAlarmStep(s, pins.resetAlarm, rp.resetRet);
    var s1 := CheckOn(reset.state, pins.on);
    var init := Init(s1, device, c, rp.init);
    assert init.sent == [] || init.sent == [ReadInputRegister(RegAlarm)] by {
      if !s1.inited && s1.attempts < MaxReconnectAttempts + 1 {
        var dev := if device.None? then rp.init.found else device;
        if dev.Some? && rp.init.contextCreated {
          assert init == ConnectStep(s1.(hasContext := false).(hasContext := true), dev, c, rp.init);
        }
      }
    }
  }

  /** With the connection up, the drive receives the control word and then
      the speed (each only when changed), and the alarm register is read
      exactly when a read cycle has passed. */
  lemma ConnectedOrder(s: ServoState, pins: Pins, now: int, rp: LoopReplies)
    requires WellFormed(rp)
    ensures var cmd := MotorCommand(pins.on, pins.holdMotor, pins.forward, pins.reverse);
      var o := ConnectedStep(s, pins, now, rp);
      var m := if cmd == s.lastCommand then [] else [WriteRegister(RegControl, cmd)];
      var sp := if pins.spindleSpeed == s.lastSpeed then [] else [WriteRegister(RegRpm, SpeedRegister(pins.spindleSpeed))];
      o.sent == m + sp + (if ReadDue(now, s.lastReadTime) then [ReadInputRegister(RegAlarm)] else [])
      && o.state.lastReadTime == (if ReadDue(now, s.lastReadTime) then now else s.lastReadTime)
  {
    var cmd := MotorCommand(pins.on, pins.holdMotor, pins.forward, pins.reverse);
    var motor := SendCommand(s, cmd, rp.motorRet);
    assert motor.state.lastSpeed == s.lastSpeed && motor.state.lastReadTime == s.lastReadTime;
  }

  /** Successful writes leave the record holding what was sent. */
  lemma WritesDelivered(s: ServoState, pins: Pins, rp: LoopReplies)
    requires rp.motorRet >= 0 && rp.speedRet >= 0
    ensures var w := ServoWriteStep(s, pins, rp);
      w.state.lastCommand == MotorCommand(pins.on, pins.holdMotor, pins.forward, pins.reverse)
      && w.state.lastSpeed == pins.spindleSpeed && w.state.inited == s.inited
  {
  }

  /** A record that already holds the pins' command and speed, with no read
      due, gives a silent pass after the connection check. */
  lemma NothingToSend(s: ServoState, pins: Pins, now: int, rp: LoopReplies)
    requires WellFormed(rp)
    requires s.lastCommand == MotorCommand(pins.on, pins.holdMotor, pins.forward, pins.reverse)
    requires s.lastSpeed == pins.spindleSpeed && !ReadDue(now, s.lastReadTime)
    ensures ConnectedStep(s, pins, now, rp) == Outcome(s, [])
  {
  }

  /** Once a pass has delivered everything, the next pass with the same
      pins and the connection still up puts nothing on the bus. */
  lemma SteadyStateQuiet(s: ServoState, device: Option<string>, c: Settings, pins: Pins, now: int, now2: int, rp: LoopReplies, rp2: LoopReplies)
    requires WellFormed(rp) && WellFormed(rp2)
    requires pins.enable && !pins.resetAlarm && s.inited
    requires rp.motorRet >= 0 && rp.speedRet >= 0 && rp.alarmRet >= 0
    requires !ReadDue(now2, Iteration(s, device, c, pins, now, rp).state.lastReadTime)
    ensures Iteration(s, device, c, pins, now, rp).state.inited
    ensures var o := Iteration(s, device, c, pins, now, rp);
      Iteration(o.state, o.device, c, pins, now2, rp2).sent == []
  {
    var s1 := CheckOn(s, pins.on);
    assert Init(s1, device, c, rp.init) == InitOutcome(s1, 0, device, []);
    WritesDelivered(s1, pins, rp);
    var o := Iteration(s, device, c, pins, now, rp);
    assert o.state == ConnectedStep(s1, pins, now, rp).state;
    assert o.state.inited;
    var s2 := CheckOn(o.state, pins.on);
    assert s2 == o.state;
    assert Init(s2, o.device, c, rp2.init) == InitOutcome(s2, 0, o.device, []);
    NothingToSend(s2, pins, now2, rp2);
  }

  /** Disabling the component turns the drive off but keeps the last
      accepted control word, so re-enabling with the same pins does not
      send it again. */
  lemma DisableKeepsCommand(s: ServoState, device: Option<string>, c: Settings, pins: Pins, now: int, rp: LoopReplies)
    requires WellFormed(rp) && !pins.enable && s.inited
    ensures var o := Iteration(s, device, c, pins, now, rp);
      o.sent == [WriteRegister(RegControl, CmdOff)] && o.state.lastCommand == s.lastCommand
  {
  }

  // ---------------------------------------------------------------------
  // The driver's functions over the component record

  method CheckOnStatus(comp: Servo, on: bool)
    modifies comp`lastOnStatus, comp`attempts
    ensures comp.State() == CheckOn(old(comp.State()), on)
  {
    if comp.lastOnStatus != on {
      comp.lastOnStatus := on;
      if on {
        comp.attempts := 0;
      }
    }
  }

  method SendMotorCommand(comp: Servo, command: int, ret: int)
    modifies comp`attempts, comp`inited, comp`sent, comp`lastCommand
    ensures var o := SendCommand(old(comp.State()), command, ret);
      comp.State() == o.state && comp.sent == old(comp.sent) + o.sent
  {
    if command != comp.lastCommand {
      var r := comp.Write06(RegControl, command, ret);
      if r >= 0 {
        comp.lastCommand := command;
      }
    }
  }

  method UpdateMotorStatus(comp: Servo, pins: Pins, ret: int)
    modifies comp`attempts, comp`inited, comp`sent, comp`lastCommand
    ensures var o := SendCommand(old(comp.State()), MotorCommand(pins.on, pins.holdMotor, pins.forward, pins.reverse), ret);
      comp.State() == o.state && comp.sent == old(comp.sent) + o.sent
  {
    if pins.on {
      var command := CmdOff;
      if pins.holdMotor {
        command := CmdStop;
      }
      if pins.forward && !pins.reverse {
        command := CmdForward;
      } else if pins.reverse && !pins.forward {
        command := CmdReverse;
      }
      SendMotorCommand(comp, command, ret);
    } else {
      SendMotorCommand(comp, CmdOff, ret);
    }
  }

  method UpdateSpeed(comp: Servo, speed: real, ret: int)
    modifies comp`attempts, comp`inited, comp`sent, comp`lastSpeed
    ensures var o := UpdateSpeedStep(old(comp.State()), speed, ret);
      comp.State() == o.state && comp.sent == old(comp.sent) + o.sent
  {
    if speed != comp.lastSpeed {
      var speedVal := SpeedRegister(speed);
      var r := comp.Write06(RegRpm, speedVal, ret);
      if r >= 0 {
        comp.lastSpeed := speed;
      }
    }
  }

  method ServoWrite(comp: Servo, pins: Pins, rp: LoopReplies)
    modifies comp`attempts, comp`inited, comp`sent, comp`lastCommand, comp`lastSpeed
    ensures var o := ServoWriteStep(old(comp.State()), pins, rp);
      comp.State() == o.state && comp.sent == old(comp.sent) + o.sent
  {
    UpdateMotorStatus(comp, pins, rp.motorRet);
    UpdateSpeed(comp, pins.spindleSpeed, rp.speedRet);
  }

  method WatchResetAlertSignal(comp: Servo, reset: bool, ret: int)
    modifies comp`attempts, comp`inited, comp`sent
    ensures var o := ResetAlarmStep(old(comp.State()), reset, ret);
      comp.State() == o.state && comp.sent == old(comp.sent) + o.sent
  {
    if reset {
      var _ := comp.Write06(RegResetAlarm, ResetAlarmValue, ret);
    }
  }

  method ReadAlarm(comp: Servo, ret: int, reply: nat)
    requires reply < 0x1_0000
    modifies comp`attempts, comp`inited, comp`sent, comp`alarmCode, comp`alarmFlag
    ensures var o := ReadAlarmStep(old(comp.State()), ret, reply);
      comp.State() == o.state && comp.sent == old(comp.sent) + o.sent
  {
    var r, alarmCode := comp.Read04(RegAlarm, ret, reply);
    if r >= 0 {
      if comp.alarmCode != alarmCode {
        comp.alarmCode := alarmCode;
        comp.alarmFlag := alarmCode > 0;
      }
    }
  }

  /** servo_read. */
  method ServoRead(comp: Servo, ret: int, reply: nat)
    requires reply < 0x1_0000
    modifies comp`attempts, comp`inited, comp`sent, comp`alarmCode, comp`alarmFlag
    ensures var o := ReadAlarmStep(old(comp.State()), ret, reply);
      comp.State() == o.state && comp.sent == old(comp.sent) + o.sent
  {
    ReadAlarm(comp, ret, reply);
  }

  /** The part of a pass after init_modbus succeeded. */
  method ConnectedPass(comp: Servo, pins: Pins, now: int, rp: LoopReplies)
    requires WellFormed(rp)
    modifies comp`attempts, comp`inited, comp`sent, comp`lastCommand, comp`lastSpeed,
      comp`alarmCode, comp`alarmFlag, comp`lastReadTime
    ensures var o := ConnectedStep(old(comp.State()), pins, now, rp);
      comp.State() == o.state && comp.sent == old(comp.sent) + o.sent
  {
    ServoWrite(comp, pins, rp);
    if (now - comp.lastReadTime) % U64 >= ReadCyclePeriod {
      ServoRead(comp, rp.alarmRet, rp.alarmValue);
      comp.lastReadTime := now;
    }
  }

  /** The start of an enabled pass: the reset request, the on-pin check
      and the connection attempt. */
  method PrepareConnection(comp: Servo, g: ModbusGlobals, pins: Pins, rp: LoopReplies) returns (r: int)
    requires WellFormed(rp)
    modifies comp`attempts, comp`inited, comp`sent, comp`alarmCode, comp`alarmFlag,
      comp`lastOnStatus, comp`hasContext, g`device
    ensures var reset := ResetAlarmStep(old(comp.State()), pins.resetAlarm, rp.resetRet);
      var init := Init(CheckOn(reset.state, pins.on), old(g.device), comp.Config(), rp.init);
      comp.State() == init.state && g.device == init.device && r == init.ret
      && comp.sent == old(comp.sent) + reset.sent + init.sent
  {
    WatchResetAlertSignal(comp, pins.resetAlarm, rp.resetRet);
    CheckOnStatus(comp, pins.on);
    r := comp.InitModbus(g, rp.init);
  }

  /** One pass of main_loop, the sleep left out. */
  method MainLoopPass(comp: Servo, g: ModbusGlobals, pins: Pins, now: int, rp: LoopReplies)
    requires WellFormed(rp)
    modifies comp`attempts, comp`inited, comp`sent, comp`lastCommand, comp`lastSpeed,
      comp`alarmCode, comp`alarmFlag, comp`lastReadTime, comp`lastOnStatus, comp`hasContext, g`device
    ensures var o := Iteration(old(comp.State()), old(g.device), comp.Config(), pins, now, rp);
      comp.State() == o.state && g.device == o.device && comp.sent == old(comp.sent) + o.sent
  {
    if !pins.enable {
      if comp.inited {
        var _ := comp.Write06(RegControl, CmdOff, rp.offRet);
        comp.inited := false;
        comp.attempts := 0;
      }
      return;
    }
    EnabledPass(comp, g, pins, now, rp);
  }

  method EnabledPass(comp: Servo, g: ModbusGlobals, pins: Pins, now: int, rp: LoopReplies)
    requires WellFormed(rp)
    modifies comp`attempts, comp`inited, comp`sent, comp`lastCommand, comp`lastSpeed,
      comp`alarmCode, comp`alarmFlag, comp`lastReadTime, comp`lastOnStatus, comp`hasContext, g`device
    ensures var o := EnabledStep(old(comp.State()), old(g.device), comp.Config(), pins, now, rp);
      comp.State() == o.state && g.device == o.device && comp.sent == old(comp.sent) + o.sent
  {
    ghost var s0, d0, sent0 := comp.State(), g.device, comp.sent;
    ghost var reset := ResetAlarmStep(s0, pins.resetAlarm, rp.resetRet);
    ghost var init := Init(CheckOn(reset.state, pins.on), d0, comp.Config(), rp.init);
    var r := PrepareConnection(comp, g, pins, rp);
    AppendAssoc(sent0, reset.sent, init.sent);
    if r < 0 {
      return;
    }
    ghost var rest := ConnectedStep(init.state, pins, now, rp);
    ConnectedPass(comp, pins, now, rp);
    AppendAssoc(sent0, reset.sent + init.sent, rest.sent);
  }

  /** The signal handler's last words to the drive: switch it off when a
      context is held. */
  method HandleSigint(comp: Servo, ret: int)
    modifies comp`attempts, comp`inited, comp`sent
    ensures comp.hasContext ==>
      comp.State() == AfterCall(old(comp.State()), ret) && comp.sent == old(comp.sent) + [WriteRegister(RegControl, CmdOff)]
    ensures !comp.hasContext ==> comp.State() == old(comp.State()) && comp.sent == old(comp.sent)
  {
    if comp.hasContext {
      var _ := comp.Write06(RegControl, CmdOff, ret);
    }
  }
}
