/** The Modbus side of the T3D servo driver: the component record, the
    register read/write wrappers with their reconnect counter, the
    connection set-up, and the parsing of the `key=value` arguments. */
module ServoModbus {
  import opened Common

  // ---------------------------------------------------------------------
  // Constants of the driver

  const MaxReconnectAttempts: int := 3
  const ReadCyclePeriod: int := 1000000000
  const U64: int := 0x1_0000_0000_0000_0000

  const RegRpm: int := 76
  const RegMaxRpm: int := 75
  const RegAccelTime: int := 60
  const RegDecelTime: int := 61
  const RegControl: int := 4112
  const RegAlarm: int := 26
  const RegResetAlarm: int := 4100
  const ResetAlarmValue: int := 4112

  /** Control register commands. */
  const CmdStop: int := 4660
  const CmdForward: int := 8738
  const CmdReverse: int := 4369
  const CmdOff: int := 0

  /** The implicit conversion of an unsigned value to a 16-bit register. */
  function U16(x: nat): (r: nat)
    ensures r < 0x1_0000
    ensures x < 0x1_0000 ==> r == x
  {
    x % 0x1_0000
  }

  /** One request put on the bus, in the order issued. */
  datatype Request =
    | WriteRegister(reg: int, value: int)
    | ReadInputRegister(reg: int)
    | ReadHoldingRegister(reg: int)

  /** The fields of the component record that the driver updates
      (`mb_ctx` is reduced to whether a context is held). */
  datatype ServoState = ServoState(
    lastSpeed: real,
    lastCommand: int,
    attempts: int,
    inited: bool,
    lastOnStatus: bool,
    lastReadTime: int,
    alarmCode: int,
    alarmFlag: bool,
    hasContext: bool)

  /** What the driver keeps true: a connection that is up has a fresh
      attempt counter, and the alarm flag mirrors the alarm code. */
  predicate Consistent(s: ServoState)
  {
    && s.attempts >= 0
    && (s.inited ==> s.attempts == 0)
    && s.alarmFlag == (s.alarmCode > 0)
  }

  // ---------------------------------------------------------------------
  // The reconnect counter

  /** handle_modbus_failure: every failure counts; while attempts remain
      the connection is also marked as down. */
  function Failure(s: ServoState): (r: ServoState)
    ensures r.attempts == s.attempts + 1
    ensures s.attempts < MaxReconnectAttempts ==> !r.inited
    ensures s.attempts >= MaxReconnectAttempts ==> r.inited == s.inited
    ensures r.(attempts := s.attempts, inited := s.inited) == s
    ensures Consistent(s) ==> Consistent(r)
  {
    if s.attempts >= MaxReconnectAttempts then s.(attempts := s.attempts + 1)
    else s.(inited := false, attempts := s.attempts + 1)
  }

  /** A wrapper's effect on the record: a negative library result is handled
      as a failure, any other result changes nothing. */
  function AfterCall(s: ServoState, ret: int): (r: ServoState)
    ensures ret >= 0 ==> r == s
    ensures ret < 0 ==> r.attempts == s.attempts + 1
    ensures Consistent(s) ==> Consistent(r)
  {
    if ret < 0 then Failure(s) else s
  }

  /** `n` failures in a row. */
  function Failures(s: ServoState, n: nat): (r: ServoState)
  {
    if n == 0 then s else Failure(Failures(s, n - 1))
  }

  /** Over `n` failures the counter grows by `n`; the first failure taken
      with attempts left marks the connection down, and later ones keep it
      down. */
  lemma {:induction false} FailuresCount(s: ServoState, n: nat)
    ensures Failures(s, n).attempts == s.attempts + n
    ensures n >= 1 && s.attempts < MaxReconnectAttempts ==> !Failures(s, n).inited
    ensures Failures(s, n).hasContext == s.hasContext && Failures(s, n).alarmCode == s.alarmCode
  {
    if n > 0 {
      FailuresCount(s, n - 1);
    }
  }

  /** init_modbus refuses once the counter has passed the limit. */
  predicate Refusing(s: ServoState)
  {
    !s.inited && s.attempts >= MaxReconnectAttempts + 1
  }

  // ---------------------------------------------------------------------
  // Connection set-up

  /** The library results that one call of init_modbus meets, in order:
      the serial device search, context creation, connect, the alarm read
      and the three settings writes. */
  datatype InitReplies = InitReplies(
    found: Option<string>,
    contextCreated: bool,
    connectRet: int,
    alarmRet: int,
    alarmValue: nat,
    maxRpmRet: int,
    accelRet: int,
    decelRet: int)

  /** The speed limit and ramp times sent after connecting. */
  datatype Settings = Settings(speedLimit: nat, accelerationTime: nat, decelerationTime: nat)

  const DefaultSettings := Settings(2500, 1000, 1000)

  datatype InitOutcome = InitOutcome(state: ServoState, ret: int, device: Option<string>, sent: seq<Request>)

  /** The three writes of update_servo_settings. */
  function SettingsRequests(c: Settings): (r: seq<Request>)
    ensures |r| == 3
    ensures forall q :: q in r ==>
      q.WriteRegister? && 0 <= q.value < 0x1_0000 && q.reg != RegControl && q.reg != RegRpm
    ensures c.speedLimit < 0x1_0000 && c.accelerationTime < 0x1_0000 && c.decelerationTime < 0x1_0000 ==>
      r == [WriteRegister(RegMaxRpm, c.speedLimit), WriteRegister(RegAccelTime, c.accelerationTime),
            WriteRegister(RegDecelTime, c.decelerationTime)]
  {
    [WriteRegister(RegMaxRpm, U16(c.speedLimit)),
     WriteRegister(RegAccelTime, U16(c.accelerationTime)),
     WriteRegister(RegDecelTime, U16(c.decelerationTime))]
  }

  /** init_modbus. `device` is the configured device, if any. */
  function Init(s: ServoState, device: Option<string>, c: Settings, rp: InitReplies): (o: InitOutcome)
    requires rp.alarmValue < 0x1_0000
    ensures s.inited ==> o == InitOutcome(s, 0, device, [])
    ensures !s.inited && s.attempts >= MaxReconnectAttempts + 1 ==> o == InitOutcome(s, -1, device, [])
    ensures o.ret == 0 || o.ret == -1
    ensures !s.inited && s.attempts < MaxReconnectAttempts + 1 && o.ret == -1 ==>
      o.state.attempts == s.attempts + 1 && (s.attempts < MaxReconnectAttempts ==> !o.state.inited)
    ensures !s.inited && o.ret == 0 ==>
      o.state.inited && o.state.attempts == 0
      && o.state.alarmCode == rp.alarmValue && o.state.alarmFlag == (rp.alarmValue > 0)
      && o.sent == [ReadInputRegister(RegAlarm)] + SettingsRequests(c)
    ensures device.Some? ==> o.device == device
    ensures !s.inited && s.attempts < MaxReconnectAttempts + 1 && device.None? ==> o.device == rp.found
    ensures Consistent(s) ==> Consistent(o.state)
    ensures o.state.(attempts := s.attempts, inited := s.inited, hasContext := s.hasContext,
                     alarmCode := s.alarmCode, alarmFlag := s.alarmFlag) == s
  {
    if s.inited then InitOutcome(s, 0, device, [])
    else if s.attempts >= MaxReconnectAttempts + 1 then InitOutcome(s, -1, device, [])
    else
      var s1 := s.(hasContext := false);
      var dev := if device.None? then rp.found else device;
      if dev.None? then InitOutcome(Failure(s1), -1, dev, [])
      else if !rp.contextCreated then InitOutcome(Failure(s1), -1, dev, [])
      else
        ConnectStep(s1.(hasContext := true), dev, c, rp)
  }

  /** The part of init_modbus after a context has been created: connect,
      read the alarm register, send the settings. */
  function ConnectStep(s: ServoState, dev: Option<string>, c: Settings, rp: InitReplies): (o: InitOutcome)
    requires rp.alarmValue < 0x1_0000
    ensures o.ret == 0 || o.ret == -1
    ensures o.device == dev
    ensures o.ret == -1 ==> o.state == Failure(s)
    ensures o.ret == 0 ==>
      o.state.inited && o.state.attempts == 0 && o.state.hasContext == s.hasContext
      && o.state.alarmCode == rp.alarmValue && o.state.alarmFlag == (rp.alarmValue > 0)
      && o.sent == [ReadInputRegister(RegAlarm)] + SettingsRequests(c)
    ensures o.state.(attempts := s.attempts, inited := s.inited, alarmCode := s.alarmCode, alarmFlag := s.alarmFlag) == s
  {
    if rp.connectRet == -1 then InitOutcome(Failure(s), -1, dev, [])
    else if rp.alarmRet < 0 then InitOutcome(Failure(s), -1, dev, [ReadInputRegister(RegAlarm)])
    else
      InitOutcome(Configured(s, rp), 0, dev, [ReadInputRegister(RegAlarm)] + SettingsRequests(c))
  }

  /** The end of a successful set-up: the alarm pins take the code read,
      the settings are sent, and the connection counts as up with a fresh
      counter whatever the settings writes answered. */
  function Configured(s: ServoState, rp: InitReplies): (r: ServoState)
    ensures r.inited && r.attempts == 0
    ensures r.alarmCode == rp.alarmValue && r.alarmFlag == (rp.alarmValue > 0)
    ensures r.(attempts := s.attempts, inited := s.inited, alarmCode := s.alarmCode, alarmFlag := s.alarmFlag) == s
  {
    var s3 := s.(alarmCode := rp.alarmValue, alarmFlag := rp.alarmValue > 0);
    var s4 := AfterCall(AfterCall(AfterCall(s3, rp.maxRpmRet), rp.accelRet), rp.decelRet);
    s4.(attempts := 0, inited := true)
  }

  /** From a fresh counter, four failures in a row leave init_modbus refusing
      every later call without touching the record or the bus, whatever the
      bus would answer, until the counter is reset elsewhere. */
  lemma FourFailuresRefuse(s: ServoState, device: Option<string>, c: Settings, rp: InitReplies)
    requires s.attempts == 0 && rp.alarmValue < 0x1_0000
    ensures Refusing(Failures(s, 4))
    ensures Init(Failures(s, 4), device, c, rp) == InitOutcome(Failures(s, 4), -1, device, [])
  {
    FailuresCount(s, 4);
  }

  /** Three failures are not enough: the fourth call still tries. */
  lemma ThreeFailuresStillTry(s: ServoState)
    requires s.attempts == 0
    ensures !Refusing(Failures(s, 3)) && !Failures(s, 3).inited
  {
    FailuresCount(s, 3);
  }

  // ---------------------------------------------------------------------
  // The component record

  class Servo {
    var lastSpeed: real
    var lastCommand: int
    var attempts: int
    var inited: bool
    var lastOnStatus: bool
    var lastReadTime: int
    var alarmCode: int
    var alarmFlag: bool
    var hasContext: bool
    var speedLimit: nat
    var accelerationTime: nat
    var decelerationTime: nat
    /** Requests put on the bus so far. */
    var sent: seq<Request>

    function State(): ServoState
      reads this
    {
      ServoState(lastSpeed, lastCommand, attempts, inited, lastOnStatus, lastReadTime,
                 alarmCode, alarmFlag, hasContext)
    }

    function Config(): Settings
      reads this
    {
      Settings(speedLimit, accelerationTime, decelerationTime)
    }

    /** The values set by init_hal_component and init_hal_pins; the read
        timestamp is not set there and starts at 0 here. */
    constructor ()
      ensures State() == ServoState(0.0, 0, 0, false, false, 0, 0, false, false)
      ensures Config() == DefaultSettings && sent == []
      ensures Consistent(State())
    {
      lastSpeed := 0.0;
      lastCommand := 0;
      attempts := 0;
      inited := false;
      lastOnStatus := false;
      lastReadTime := 0;
      alarmCode := 0;
      alarmFlag := false;
      hasContext := false;
      speedLimit := 2500;
      accelerationTime := 1000;
      decelerationTime := 1000;
      sent := [];
    }

    method HandleModbusFailure()
      modifies this`attempts, this`inited
      ensures State() == Failure(old(State()))
    {
      if attempts >= MaxReconnectAttempts {
        attempts := attempts + 1;
        return;
      }
      inited := false;
      attempts := attempts + 1;
    }

    /** modbus_06_write; `ret` is what the library returns. */
    method Write06(reg: int, value: int, ret: int) returns (r: int)
      modifies this`attempts, this`inited, this`sent
      ensures r == ret
      ensures State() == AfterCall(old(State()), ret)
      ensures sent == old(sent) + [WriteRegister(reg, value)]
    {
      sent := sent + [WriteRegister(reg, value)];
      if ret < 0 {
        HandleModbusFailure();
        return ret;
      }
      return ret;
    }

    /** modbus_04_read; on success `value` holds the register. */
    method Read04(reg: int, ret: int, reply: nat) returns (r: int, value: nat)
      modifies this`attempts, this`inited, this`sent
      ensures r == ret && value == reply
      ensures State() == AfterCall(old(State()), ret)
      ensures sent == old(sent) + [ReadInputRegister(reg)]
    {
      sent := sent + [ReadInputRegister(reg)];
      value := reply;
      if ret < 0 {
        HandleModbusFailure();
        return ret, value;
      }
      return ret, value;
    }

    /** modbus_03_read. */
    method Read03(reg: int, ret: int, reply: nat) returns (r: int, value: nat)
      modifies this`attempts, this`inited, this`sent
      ensures r == ret && value == reply
      ensures State() == AfterCall(old(State()), ret)
      ensures sent == old(sent) + [ReadHoldingRegister(reg)]
    {
      sent := sent + [ReadHoldingRegister(reg)];
      value := reply;
      if ret < 0 {
        HandleModbusFailure();
        return ret, value;
      }
      return ret, value;
    }

    /** update_servo_settings: the three writes, whose results are ignored
        apart from the failure handling. */
    method UpdateServoSettings(maxRpmRet: int, accelRet: int, decelRet: int)
      modifies this`attempts, this`inited, this`sent
      ensures State() == AfterCall(AfterCall(AfterCall(old(State()), maxRpmRet), accelRet), decelRet)
      ensures sent == old(sent) + SettingsRequests(Config())
    {
      var _ := Write06(RegMaxRpm, U16(speedLimit), maxRpmRet);
      var _ := Write06(RegAccelTime, U16(accelerationTime), accelRet);
      var _ := Write06(RegDecelTime, U16(decelerationTime), decelRet);
    }

    method InitModbus(g: ModbusGlobals, rp: InitReplies) returns (r: int)
      requires rp.alarmValue < 0x1_0000
      modifies this`attempts, this`inited, this`sent, this`hasContext, this`alarmCode, this`alarmFlag, g`device
      ensures var o := Init(old(State()), old(g.device), Config(), rp);
        State() == o.state && r == o.ret && g.device == o.device && sent == old(sent) + o.sent
    {
      if inited {
        return 0;
      }
      if attempts >= MaxReconnectAttempts + 1 {
        return -1;
      }
      if hasContext {
        hasContext := false;
      }
      if g.device.None? {
        g.device := rp.found;
      }
      if g.device.None? {
        HandleModbusFailure();
        return -1;
      }
      if !rp.contextCreated {
        HandleModbusFailure();
        return -1;
      }
      hasContext := true;
      r := Connect(g.device, rp);
    }

    /** Connect, read the alarm register and send the settings. */
    method Connect(dev: Option<string>, rp: InitReplies) returns (r: int)
      requires rp.alarmValue < 0x1_0000
      modifies this`attempts, this`inited, this`sent, this`alarmCode, this`alarmFlag
      ensures var o := ConnectStep(old(State()), dev, Config(), rp);
        State() == o.state && r == o.ret && sent == old(sent) + o.sent
    {
      if rp.connectRet == -1 {
        HandleModbusFailure();
        return -1;
      }
      ghost var sent0 := sent;
      var ret, code := Read04(RegAlarm, rp.alarmRet, rp.alarmValue);
      if ret < 0 {
        return -1;
      }
      StoreAlarmAndConfigure(code, rp);
      AppendAssoc(sent0, [ReadInputRegister(RegAlarm)], SettingsRequests(Config()));
      return 0;
    }

    method StoreAlarmAndConfigure(code: nat, rp: InitReplies)
      requires code == rp.alarmValue
      modifies this`attempts, this`inited, this`sent, this`alarmCode, this`alarmFlag
      ensures State() == Configured(old(State()), rp) && sent == old(sent) + SettingsRequests(Config())
    {
      alarmCode := code;
      alarmFlag := code > 0;
      ghost var s3 := State();
      assert s3 == old(State()).(alarmCode := rp.alarmValue, alarmFlag := rp.alarmValue > 0);
      UpdateServoSettings(rp.maxRpmRet, rp.accelRet, rp.decelRet);
      ghost var s4 := State();
      assert s4 == AfterCall(AfterCall(AfterCall(s3, rp.maxRpmRet), rp.accelRet), rp.decelRet);
      attempts := 0;
      inited := true;
      assert State() == s4.(attempts := 0, inited := true);
    }
  }

  // ---------------------------------------------------------------------
  // Arguments

  /** The two file-level settings of the Modbus unit. */
  class ModbusGlobals {
    var device: Option<string>
    var slave: int

    constructor ()
      ensures device == None && slave == 1
    {
      device := None;
      slave := 1;
    }

    /** readParams: every argument after the program name that holds a '='
        is split there by writing a NUL over the '=', read as key and value,
        and given its '=' back; `args` are the arguments as C strings. */
    method ReadParams(argv: seq<array<char>>, ghost args: seq<string>)
      requires |args| == |argv|
      requires forall i :: 0 <= i < |argv| ==> args[i] == CString(argv[i][..])
      modifies this, set i | 0 <= i < |argv| :: argv[i]
      ensures forall i :: 0 <= i < |argv| ==> argv[i][..] == old(argv[i][..])
      ensures (device, slave) == ApplyArgs(ProgramArgs(args), old(device), old(slave))
    {
      var i := 1;
      while i < |argv|
        invariant 1 <= i && (|argv| >= 1 ==> i <= |argv|)
        invariant forall j :: 0 <= j < |argv| ==> argv[j][..] == old(argv[j][..])
        invariant (device, slave) == ApplyArgs(if |args| == 0 then [] else args[1..i], old(device), old(slave))
      {
        ghost var prev := (device, slave);
        ReadArg(argv[i], args[i]);
        assert (device, slave) == ApplyArg(args[i], prev.0, prev.1);
        ApplyArgsStep(args, i, old(device), old(slave));
        i := i + 1;
      }
      assert |args| >= 1 ==> args[1..i] == args[1..];
    }

    /** The key comparisons of readParams and the checked conversion of
        the slave number. */
    method Apply(key: string, value: string)
      modifies this
      ensures (device, slave) == ApplySetting(key, value, old(device), old(slave))
    {
      if key == "device" {
        device := Some(value);
      } else if key == "slave" {
        var c := StrToL(value);
        if !(c.erange || c.end != |value| || c.end == 0) {
          if 0 <= c.value <= 255 {
            slave := c.value;
          }
        }
      }
    }

    /** One argument of readParams; `argStr` is its C string. */
    method ReadArg(arg: array<char>, ghost argStr: string)
      requires argStr == CString(arg[..])
      modifies this, arg
      ensures arg[..] == old(arg[..])
      ensures (device, slave) == ApplyArg(argStr, old(device), old(slave))
    {
      ghost var before := arg[..];
      var eq := StrChr(arg, '=');
      if eq != -1 {
        assert IndexOf(argStr, '=') == Some(eq as nat);
        assert before[eq] == '=' by {
          assert argStr == before[..|argStr|];
        }
        arg[eq] := '\0';
        ghost var cut := arg[..];
        assert cut == before[eq := '\0'];
        CStringSplit(before, eq);
        var key := CStringAt(arg, 0);
        assert arg[0..] == arg[..];
        assert key == argStr[..eq];
        var value := CStringAt(arg, eq + 1);
        assert arg[eq + 1..] == before[eq + 1..];
        CStringSuffix(before, eq + 1);
        assert value == argStr[eq + 1..];
        Apply(key, value);
        arg[eq] := '=';
        assert arg[..] == cut[eq := '='];
        RestoreChar(before, eq, '\0');
      }
    }
  }

  /** Writing a character and then the original one back leaves the text as it was. */
  lemma RestoreChar<T>(s: seq<T>, i: nat, x: T)
    requires i < |s|
    ensures s[i := x][i := s[i]] == s
  {
  }

  /** The arguments after the program name. */
  function ProgramArgs(args: seq<string>): (r: seq<string>)
    ensures |args| >= 1 ==> r == args[1..]
    ensures |args| == 0 ==> r == []
  {
    if |args| == 0 then [] else args[1..]
  }

  /** strchr within a C string. */
  method StrChr(a: array<char>, c: char) returns (r: int)
    requires c != '\0'
    ensures r == -1 ==> IndexOf(CString(a[..]), c).None?
    ensures r != -1 ==> 0 <= r && IndexOf(CString(a[..]), c) == Some(r)
  {
    ghost var buf := a[..];
    var k := 0;
    while k < a.Length && a[k] != '\0' && a[k] != c
      invariant 0 <= k <= a.Length
      invariant forall j :: 0 <= j < k ==> buf[j] != '\0' && buf[j] != c
    {
      k := k + 1;
    }
    StrChrResult(buf, c, k);
    if k < a.Length && a[k] == c {
      return k;
    }
    return -1;
  }

  /** Where the search of strchr stops, and what that means. */
  lemma StrChrResult(s: seq<char>, c: char, k: nat)
    requires c != '\0' && k <= |s|
    requires forall j :: 0 <= j < k ==> s[j] != '\0' && s[j] != c
    requires k == |s| || s[k] == '\0' || s[k] == c
    ensures k < |s| && s[k] == c ==> IndexOf(CString(s), c) == Some(k)
    ensures !(k < |s| && s[k] == c) ==> IndexOf(CString(s), c).None?
  {
    if k < |s| && s[k] == c {
      assert NulIndex(s) > k;
      IndexOfAt(CString(s), c, k);
    } else {
      NulIndexAt(s, k);
    }
  }

  /** The C string starting at index `start`. */
  method CStringAt(a: array<char>, start: nat) returns (s: string)
    requires start <= a.Length
    ensures s == CString(a[start..])
  {
    ghost var buf := a[start..];
    var k := start;
    s := [];
    while k < a.Length && a[k] != '\0'
      invariant start <= k <= a.Length
      invariant s == buf[..k - start]
      invariant forall j :: 0 <= j < k - start ==> buf[j] != '\0'
    {
      assert buf[..k + 1 - start] == buf[..k - start] + [a[k]];
      s := s + [a[k]];
      k := k + 1;
    }
    NulIndexAt(buf, k - start);
  }

  /** The rest of a C string from index `k` is the C string found there. */
  lemma CStringSuffix(s: seq<char>, k: nat)
    requires k <= NulIndex(s)
    ensures CString(s)[k..] == CString(s[k..])
  {
    NulIndexAt(s[k..], NulIndex(s) - k);
  }

  /** Overwriting the `eq`-th character of a C string with NUL cuts it
      there; the text after it is what followed in the original. */
  lemma CStringSplit(s: seq<char>, eq: nat)
    requires eq < |CString(s)|
    ensures CString(s[eq := '\0']) == CString(s)[..eq]
  {
    NulIndexAt(s[eq := '\0'], eq);
  }

  /** The index of the first NUL, or the length when there is none. */
  function NulIndex(s: seq<char>): (n: nat)
    ensures n <= |s| && (n < |s| ==> s[n] == '\0')
    ensures forall j :: 0 <= j < n ==> s[j] != '\0'
  {
    if s == [] || s[0] == '\0' then 0 else 1 + NulIndex(s[1..])
  }

  /** The first NUL is the only index before which there is none and at
      which there is one (or the end). */
  lemma NulIndexAt(s: seq<char>, k: nat)
    requires k <= |s| && (k == |s| || s[k] == '\0')
    requires forall j :: 0 <= j < k ==> s[j] != '\0'
    ensures NulIndex(s) == k
  {
  }

  /** The characters of a C string: everything before the first NUL. */
  function CString(s: seq<char>): (r: string)
    ensures |r| == NulIndex(s) && forall j :: 0 <= j < |r| ==> r[j] == s[j] && r[j] != '\0'
  {
    s[..NulIndex(s)]
  }

  /** Index of the first `c` in `s`, if there is one. */
  function IndexOf(s: string, c: char): (r: Option<nat>)
    ensures r.Some? ==> r.value < |s| && s[r.value] == c && forall j :: 0 <= j < r.value ==> s[j] != c
    ensures r.None? ==> forall j :: 0 <= j < |s| ==> s[j] != c
  {
    if s == [] then None
    else if s[0] == c then Some(0)
    else match IndexOf(s[1..], c)
      case None => None
      case Some(i) => Some(i + 1)
  }

  /** The first occurrence is the only index with `c` there and none before. */
  lemma IndexOfAt(s: string, c: char, k: nat)
    requires k < |s| && s[k] == c && forall j :: 0 <= j < k ==> s[j] != c
    ensures IndexOf(s, c) == Some(k)
  {
  }

  predicate IsSpace(c: char)
  {
    c == ' ' || c == '\t' || c == '\n' || c == '\r' || c == '\U{C}' || c == '\U{B}'
  }

  predicate IsDigit(c: char)
  {
    '0' <= c <= '9'
  }

  /** Number of leading white-space characters. */
  function SpacePrefix(s: string): (n: nat)
    ensures n <= |s| && forall i :: 0 <= i < n ==> IsSpace(s[i])
    ensures n < |s| ==> !IsSpace(s[n])
  {
    if s == [] || !IsSpace(s[0]) then 0 else 1 + SpacePrefix(s[1..])
  }

  /** Number of leading digits. */
  function DigitPrefix(s: string): (n: nat)
    ensures n <= |s| && forall i :: 0 <= i < n ==> IsDigit(s[i])
    ensures n < |s| ==> !IsDigit(s[n])
  {
    if s == [] || !IsDigit(s[0]) then 0 else 1 + DigitPrefix(s[1..])
  }

  /** The value of a string of decimal digits. */
  function DigitsValue(s: string): (v: nat)
    requires forall i :: 0 <= i < |s| ==> IsDigit(s[i])
  {
    if s == [] then 0
    else
      assert IsDigit(s[|s| - 1]);
      10 * DigitsValue(s[..|s| - 1]) + (s[|s| - 1] as int - '0' as int)
  }

  const LongMax: int := 0x7FFF_FFFF_FFFF_FFFF
  const LongMin: int := -0x8000_0000_0000_0000

  /** strtol(s, &end, 10): the value, the end index and whether ERANGE was set. */
  datatype Conversion = Conversion(value: int, end: nat, erange: bool)

  function StrToL(s: string): (c: Conversion)
    ensures c.end <= |s| && LongMin <= c.value <= LongMax
    ensures c.end == 0 ==> c == Conversion(0, 0, false)
    ensures c.erange ==> c.value == LongMax || c.value == LongMin
  {
    var ws := SpacePrefix(s);
    var sign := SignLength(s[ws..]);
    var digits := DigitPrefix(s[ws + sign..]);
    if digits == 0 then Conversion(0, 0, false)
    else
      var mag: int := DigitsValue(s[ws + sign..][..digits]);
      var v: int := if sign == 1 && s[ws] == '-' then -mag else mag;
      Ranged(v, ws + sign + digits)
  }

  /** The length of an optional leading sign. */
  function SignLength(t: string): (n: nat)
    ensures n <= 1 && n <= |t|
  {
    if t != [] && (t[0] == '+' || t[0] == '-') then 1 else 0
  }

  /** The value strtol returns for `v`: clamped to the range of long, with
      ERANGE set when clamped. */
  function Ranged(v: int, end: nat): (c: Conversion)
    ensures c.end == end && LongMin <= c.value <= LongMax
    ensures c.erange <==> (v > LongMax || v < LongMin)
    ensures !c.erange ==> c.value == v
  {
    if v > LongMax then Conversion(LongMax, end, true)
    else if v < LongMin then Conversion(LongMin, end, true)
    else Conversion(v, end, false)
  }

  /** The slave number readParams accepts from `slave=value`: a complete
      base-10 conversion without overflow, between 0 and 255. */
  function SlaveFrom(value: string): (r: Option<int>)
    ensures r.Some? ==> 0 <= r.value <= 255
    ensures r.Some? ==> StrToL(value).end == |value| && value != []
    ensures r.Some? ==> !StrToL(value).erange && r.value == StrToL(value).value
  {
    var c := StrToL(value);
    if c.erange || c.end != |value| || c.end == 0 then None
    else if 0 <= c.value <= 255 then Some(c.value)
    else None
  }

  /** The decimal digits of `n`, as the driver's users write them. */
  function DecimalString(n: nat): (s: string)
    ensures s != [] && forall i :: 0 <= i < |s| ==> IsDigit(s[i])
  {
    if n < 10 then [('0' as int + n) as char]
    else DecimalString(n / 10) + [('0' as int + n % 10) as char]
  }

  lemma {:induction false} DecimalStringValue(n: nat)
    ensures DigitsValue(DecimalString(n)) == n
  {
    if n >= 10 {
      DecimalStringValue(n / 10);
      var s := DecimalString(n);
      assert s[..|s| - 1] == DecimalString(n / 10);
    }
  }

  lemma DigitPrefixAll(s: string)
    requires forall i :: 0 <= i < |s| ==> IsDigit(s[i])
    ensures DigitPrefix(s) == |s|
  {
    if s != [] {
      DigitPrefixAll(s[1..]);
    }
  }

  /** strtol reads a plain digit string completely. */
  lemma StrToLOfDigits(s: string)
    requires s != [] && forall i :: 0 <= i < |s| ==> IsDigit(s[i])
    requires DigitsValue(s) <= LongMax
    ensures StrToL(s) == Conversion(DigitsValue(s), |s|, false)
  {
    assert !IsSpace(s[0]);
    assert SpacePrefix(s) == 0;
    assert s[0..] == s;
    assert SignLength(s) == 0;
    DigitPrefixAll(s);
    assert s[..|s|] == s;
  }

  /** Every slave number from 0 to 255, written in decimal, is accepted. */
  lemma SlaveRoundTrip(n: nat)
    requires n <= 255
    ensures SlaveFrom(DecimalString(n)) == Some(n)
  {
    DecimalStringValue(n);
    StrToLOfDigits(DecimalString(n));
  }

  /** Trailing characters after the number make the argument invalid. */
  lemma SlaveRejectsTrailing(n: nat, c: char)
    requires n <= 255 && !IsDigit(c)
    ensures SlaveFrom(DecimalString(n) + [c]) == None
  {
    var d := DecimalString(n);
    var s := d + [c];
    assert !IsSpace(s[0]) by {
      assert s[0] == d[0];
    }
    assert SpacePrefix(s) == 0;
    assert s[0..] == s;
    assert SignLength(s) == 0 by {
      assert s[0] == d[0];
    }
    DigitPrefixAll(d);
    assert forall i :: 0 <= i < |d| ==> IsDigit(s[i]);
    DigitPrefixStops(s, |d|);
    assert StrToL(s).end == |d| < |s|;
  }

  /** White space, an optional sign and at least one digit: what strtol
      reads as a number. */
  predicate Numeral(ws: string, sign: string, digits: string)
  {
    && (forall i :: 0 <= i < |ws| ==> IsSpace(ws[i]))
    && (sign == "" || sign == "+" || sign == "-")
    && digits != [] && (forall i :: 0 <= i < |digits| ==> IsDigit(digits[i]))
  }

  /** The number a numeral denotes. */
  function SignedValue(sign: string, digits: string): int
    requires forall i :: 0 <= i < |digits| ==> IsDigit(digits[i])
  {
    var m: int := DigitsValue(digits);
    if sign == "-" then -m else m
  }

  /** strtol skips the white space, takes the sign and reads the digits up to
      the first non-digit, giving the signed value clamped to the range of
      long, with the end right after the digits. */
  lemma StrToLOfNumeral(ws: string, sign: string, digits: string, rest: string)
    requires Numeral(ws, sign, digits) && (rest == [] || !IsDigit(rest[0]))
    ensures StrToL(ws + sign + digits + rest) == Ranged(SignedValue(sign, digits), |ws| + |sign| + |digits|)
  {
    assert ws + sign + digits + rest == ws + (sign + (digits + rest)) by {
      AppendAssoc(ws, sign, digits);
      AppendAssoc(ws + sign, digits, rest);
      AppendAssoc(sign, digits, rest);
      AppendAssoc(ws, sign, digits + rest);
    }
    NumeralParts(ws, sign, digits, rest);
  }

  /** Where strtol's three scans stop on a numeral followed by a non-digit. */
  lemma NumeralParts(ws: string, sign: string, digits: string, rest: string)
    requires Numeral(ws, sign, digits) && (rest == [] || !IsDigit(rest[0]))
    ensures var s := ws + (sign + (digits + rest));
      && SpacePrefix(s) == |ws|
      && SignLength(s[|ws|..]) == |sign|
      && DigitPrefix(s[|ws| + |sign|..]) == |digits|
      && s[|ws| + |sign|..][..|digits|] == digits
      && ((|sign| == 1 && s[|ws|] == '-') <==> sign == "-")
  {
    var u := digits + rest;
    var t := sign + u;
    var s := ws + t;
    assert !IsSpace(t[0]) by {
      if sign == "" { assert t[0] == digits[0]; } else { assert t[0] == sign[0]; }
    }
    SpacePrefixConcat(ws, t);
    assert s[|ws|..] == t;
    SignLengthConcat(sign, u);
    assert s[|ws| + |sign|..] == u;
    DigitPrefixConcat(digits, rest);
    assert s[|ws|] == t[0];
    if |sign| == 1 {
      assert t[0] == sign[0];
    }
  }

  lemma SpacePrefixConcat(ws: string, t: string)
    requires (forall i :: 0 <= i < |ws| ==> IsSpace(ws[i])) && t != [] && !IsSpace(t[0])
    ensures SpacePrefix(ws + t) == |ws|
  {
    assert (ws + t)[|ws|] == t[0];
    SpacePrefixStops(ws + t, |ws|);
  }

  lemma SignLengthConcat(sign: string, u: string)
    requires (sign == "" || sign == "+" || sign == "-") && u != [] && IsDigit(u[0])
    ensures SignLength(sign + u) == |sign| && (sign + u)[|sign|..] == u
  {
    if sign == "" {
      assert sign + u == u;
    } else {
      assert (sign + u)[0] == sign[0];
    }
  }

  lemma DigitPrefixConcat(digits: string, rest: string)
    requires (forall i :: 0 <= i < |digits| ==> IsDigit(digits[i])) && (rest == [] || !IsDigit(rest[0]))
    ensures DigitPrefix(digits + rest) == |digits| && (digits + rest)[..|digits|] == digits
  {
    if rest == [] {
      assert digits + rest == digits;
      DigitPrefixAll(digits);
    } else {
      assert (digits + rest)[|digits|] == rest[0];
      DigitPrefixStops(digits + rest, |digits|);
    }
  }

  /** A whole `slave=` value that is a numeral is accepted exactly when
      the number it denotes lies in 0..255, and then as that number. */
  lemma SlaveFromNumeral(ws: string, sign: string, digits: string)
    requires Numeral(ws, sign, digits)
    ensures var v := SignedValue(sign, digits);
      SlaveFrom(ws + sign + digits) == if 0 <= v <= 255 then Some(v) else None
  {
    StrToLOfNumeral(ws, sign, digits, []);
    assert ws + sign + digits + [] == ws + sign + digits;
  }

  /** An accepted `slave=` value is a numeral through to its end, and the
      slave is the number it denotes. */
  lemma SlaveFromOnlyNumerals(value: string)
    requires SlaveFrom(value).Some?
    ensures exists w, g ::
      && 0 <= w <= g < |value| && Numeral(value[..w], value[w..g], value[g..])
      && SlaveFrom(value).value == SignedValue(value[w..g], value[g..])
  {
    var w := SpacePrefix(value);
    var g := w + SignLength(value[w..]);
    var n := DigitPrefix(value[g..]);
    assert n > 0 && g + n == |value|;
    assert value[g..][..n] == value[g..];
    assert value[w..g] == "" || value[w..g] == "+" || value[w..g] == "-" by {
      if g == w + 1 { assert value[w..g] == [value[w]]; }
    }
    assert (g == w + 1 && value[w] == '-') <==> value[w..g] == "-" by {
      if g == w + 1 { assert value[w..g] == [value[w]]; }
    }
    assert Numeral(value[..w], value[w..g], value[g..]);
  }

  lemma SpacePrefixStops(s: string, k: nat)
    requires k < |s| && (forall i :: 0 <= i < k ==> IsSpace(s[i])) && !IsSpace(s[k])
    ensures SpacePrefix(s) == k
  {
    if k > 0 {
      SpacePrefixStops(s[1..], k - 1);
    }
  }

  lemma DigitPrefixStops(s: string, k: nat)
    requires k < |s| && (forall i :: 0 <= i < k ==> IsDigit(s[i])) && !IsDigit(s[k])
    ensures DigitPrefix(s) == k
  {
    if k > 0 {
      DigitPrefixStops(s[1..], k - 1);
    }
  }

  /** The settings after one argument: `device=` sets the device, a valid
      `slave=` the slave number; anything else leaves both. */
  function ApplyArg(arg: string, device: Option<string>, slave: int): (r: (Option<string>, int))
    ensures IndexOf(arg, '=').None? ==> r == (device, slave)
  {
    match IndexOf(arg, '=')
    case None => (device, slave)
    case Some(i) => ApplySetting(arg[..i], arg[i + 1..], device, slave)
  }

  /** The settings after one `key=value` pair. */
  function ApplySetting(key: string, value: string, device: Option<string>, slave: int): (r: (Option<string>, int))
    ensures key == "device" ==> r == (Some(value), slave)
    ensures key == "slave" && SlaveFrom(value).Some? ==> r == (device, SlaveFrom(value).value)
    ensures key == "slave" && SlaveFrom(value).None? ==> r == (device, slave)
    ensures key != "device" && key != "slave" ==> r == (device, slave)
  {
    if key == "device" then (Some(value), slave)
    else if key == "slave" then
      (match SlaveFrom(value) case Some(v) => (device, v) case None => (device, slave))
    else (device, slave)
  }

  /** The settings after the arguments `args`, taken in order. */
  function ApplyArgs(args: seq<string>, device: Option<string>, slave: int): (r: (Option<string>, int))
    ensures r.1 == slave || 0 <= r.1 <= 255
    ensures (forall j :: 0 <= j < |args| ==> !IsDeviceArg(args[j])) ==> r.0 == device
  {
    if args == [] then (device, slave)
    else
      var init := ApplyArgs(args[..|args| - 1], device, slave);
      ApplyArg(args[|args| - 1], init.0, init.1)
  }

  /** Folding one more argument of the loop into the settings. */
  lemma ApplyArgsStep(args: seq<string>, i: nat, device: Option<string>, slave: int)
    requires 1 <= i < |args|
    ensures var prev := ApplyArgs(args[1..i], device, slave);
      ApplyArgs(args[1..i + 1], device, slave) == ApplyArg(args[i], prev.0, prev.1)
  {
    assert args[1..i + 1][..i - 1] == args[1..i];
  }

  predicate IsDeviceArg(arg: string)
  {
    IndexOf(arg, '=').Some? && arg[..IndexOf(arg, '=').value] == "device"
  }

  /** The last `device=` argument decides the device. */
  lemma {:induction false} LastDeviceWins(args: seq<string>, k: nat, device: Option<string>, slave: int)
    requires k < |args| && IsDeviceArg(args[k])
    requires forall j :: k < j < |args| ==> !IsDeviceArg(args[j])
    ensures ApplyArgs(args, device, slave).0 == Some(args[k][IndexOf(args[k], '=').value + 1..])
  {
    var last := args[|args| - 1];
    var init := args[..|args| - 1];
    var before := ApplyArgs(init, device, slave);
    assert ApplyArgs(args, device, slave) == ApplyArg(last, before.0, before.1);
    if k < |args| - 1 {
      assert init[k] == args[k];
      assert forall j :: k < j < |init| ==> init[j] == args[j];
      LastDeviceWins(init, k, device, slave);
      ApplyArgKeepsDevice(last, before.0, before.1);
    } else {
      ApplyDeviceArg(last, before.0, before.1);
    }
  }

  /** A `slave=` argument whose value converts to a slave number. */
  predicate IsSlaveArg(arg: string)
  {
    IndexOf(arg, '=').Some? && arg[..IndexOf(arg, '=').value] == "slave"
    && SlaveFrom(arg[IndexOf(arg, '=').value + 1..]).Some?
  }

  /** The last valid `slave=` argument decides the slave number. */
  lemma {:induction false} LastSlaveWins(args: seq<string>, k: nat, device: Option<string>, slave: int)
    requires k < |args| && IsSlaveArg(args[k])
    requires forall j :: k < j < |args| ==> !IsSlaveArg(args[j])
    ensures ApplyArgs(args, device, slave).1 == SlaveFrom(args[k][IndexOf(args[k], '=').value + 1..]).value
  {
    var last := args[|args| - 1];
    var init := args[..|args| - 1];
    var before := ApplyArgs(init, device, slave);
    ApplyArgsLast(args, device, slave);
    if k < |args| - 1 {
      assert !IsSlaveArg(last);
      assert init[k] == args[k];
      assert forall j :: k < j < |init| ==> !IsSlaveArg(init[j]) by {
        forall j | k < j < |init| ensures !IsSlaveArg(init[j]) {
          assert init[j] == args[j];
        }
      }
      LastSlaveWins(init, k, device, slave);
      ApplyArgKeepsSlave(last, before.0, before.1);
    } else {
      ApplySlaveArg(last, before.0, before.1);
    }
  }

  /** A valid `slave=` argument sets the slave to the value that follows the `=`. */
  lemma ApplySlaveArg(arg: string, device: Option<string>, slave: int)
    requires IsSlaveArg(arg)
    ensures ApplyArg(arg, device, slave).1 == SlaveFrom(arg[IndexOf(arg, '=').value + 1..]).value
  {
  }

  /** The fold applies the last argument to the settings of the others. */
  lemma ApplyArgsLast(args: seq<string>, device: Option<string>, slave: int)
    requires args != []
    ensures var before := ApplyArgs(args[..|args| - 1], device, slave);
      ApplyArgs(args, device, slave) == ApplyArg(args[|args| - 1], before.0, before.1)
  {
  }

  /** Without a valid `slave=` argument the slave number stays as it was. */
  lemma {:induction false} NoSlaveArgKeepsSlave(args: seq<string>, device: Option<string>, slave: int)
    requires forall j :: 0 <= j < |args| ==> !IsSlaveArg(args[j])
    ensures ApplyArgs(args, device, slave).1 == slave
  {
    if args != [] {
      var last := args[|args| - 1];
      var init := args[..|args| - 1];
      var before := ApplyArgs(init, device, slave);
      ApplyArgsLast(args, device, slave);
      assert forall j :: 0 <= j < |init| ==> init[j] == args[j];
      NoSlaveArgKeepsSlave(init, device, slave);
      ApplyArgKeepsSlave(last, before.0, before.1);
    }
  }

  /** Any argument other than a valid `slave=` leaves the slave alone. */
  lemma ApplyArgKeepsSlave(arg: string, device: Option<string>, slave: int)
    requires !IsSlaveArg(arg)
    ensures ApplyArg(arg, device, slave).1 == slave
  {
  }

  /** A `device=` argument sets the device to what follows the `=`. */
  lemma ApplyDeviceArg(arg: string, device: Option<string>, slave: int)
    requires IsDeviceArg(arg)
    ensures ApplyArg(arg, device, slave).0 == Some(arg[IndexOf(arg, '=').value + 1..])
  {
  }

  /** An argument other than `device=` leaves the device alone. */
  lemma ApplyArgKeepsDevice(arg: string, device: Option<string>, slave: int)
    requires !IsDeviceArg(arg)
    ensures ApplyArg(arg, device, slave).0 == device
  {
  }
}
