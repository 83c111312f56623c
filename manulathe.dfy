/** The override wheel of the Touchy lathe screen: which track the hand
    wheel drives, how each track is clamped and when a command is pushed to
    the machine, and the periodic resynchronisation of the file chooser. */
module Manulathe {
  import opened Common
  import opened FileCatalog

  /** The destination of the hand-wheel delta (`self.wheel`). */
  datatype Wheel = Fo | So | Rpm | Mv | Scrolling

  /** Commands sent to the machine interface, the HAL interface and the
      program listing, in the order they are issued. */
  datatype MachineCommand =
    | FeedOverride(fo: real)
    | SpindleOverride(so: real)
    | SpindleSetSpeed(rpm: real)
    | MaxVelocity(mv: real)
    | ContinuousJogVelocity(jog: real)
    | ListingNext(lines: int)
    | ResetSpindle(level: int)
    | ClearStartLine
    | BlockDelete(on: bool)
    | OptionalStop(on: bool)
    | OpenEmptyProgram

  /** The values of the INI file's DISPLAY section that the wheel uses. */
  datatype Config = Config(
    maxFeedOverride: real,
    maxSpindleOverride: real,
    velocityLimit: real,
    defaultVelocity: real,
    spindleDefaultSpeed: real,
    spindleIncrement: real,
    spindleMaxSpeed: real)

  /** What one poll of the machine status reports. */
  datatype MachineStatus = MachineStatus(feedrate: real, spindleOverride: real, maxVelocity: real)

  /** `self.wheelinc` is set to 0 and never changed. */
  const WheelInc: nat := 0

  function Pow10(k: nat): (r: nat)
    ensures r >= 1
    ensures k >= 1 ==> r % 10 == 0
  {
    if k == 0 then 1 else 10 * Pow10(k - 1)
  }

  /** Listing lines moved per wheel count while scrolling: 10 ** (2 - wheelinc). */
  function ScrollFactor(): (r: int)
    ensures r == 100
  {
    assert Pow10(2) == 10 * Pow10(1);
    Pow10(2 - WheelInc)
  }

  // ---------------------------------------------------------------------
  // Reconciliation of the wheel mode with the run mode and the tab

  /** A wheel mode the screen can show: scrolling only on the listing tab
      (tab 3), no feed or spindle override in manual mode, no spindle speed
      in auto mode. */
  predicate Legal(w: Wheel, tab: int, manual: bool)
  {
    && (w == Scrolling ==> tab == 3)
    && (manual ==> w != Fo && w != So)
    && (!manual ==> w != Rpm)
  }

  /** The corrections periodic_radiobuttons applies before the delta is
      dispatched. The result is always legal, and a legal mode is kept. */
  function Reconcile(w: Wheel, tab: int, manual: bool): (r: Wheel)
    ensures Legal(r, tab, manual)
    ensures Legal(w, tab, manual) ==> r == w
    ensures manual && (w == Fo || w == So || (w == Scrolling && tab != 3)) ==> r == Mv
    ensures !manual && (w == Rpm || (w == Scrolling && tab != 3)) ==> r == Fo
  {
    var w1 := if tab != 3 && w == Scrolling then Fo else w;
    if manual then (if w1 == Fo || w1 == So then Mv else w1)
    else (if w1 == Rpm then Fo else w1)
  }

  /** Reconciling twice gives the same mode as reconciling once. */
  lemma ReconcileIdempotent(w: Wheel, tab: int, manual: bool)
    ensures Reconcile(Reconcile(w, tab, manual), tab, manual) == Reconcile(w, tab, manual)
  {
  }

  // ---------------------------------------------------------------------
  // The tracks

  /** The feed or spindle override after one wheel update, in percent:
      100 on reset, otherwise `prev + d` raised to 0 and then lowered to
      `maxOverride * 100`. */
  function OverrideTrack(prev: real, d: int, reset: bool, maxOverride: real): (v: real)
    ensures reset ==> v == 100.0
    ensures !reset && maxOverride >= 0.0 ==> 0.0 <= v <= maxOverride * 100.0
    ensures !reset && 0.0 <= prev + d as real <= maxOverride * 100.0 ==> v == prev + d as real
    ensures !reset && prev + d as real < 0.0 && maxOverride >= 0.0 ==> v == 0.0
    ensures !reset && prev + d as real > maxOverride * 100.0 ==> v == maxOverride * 100.0
  {
    if reset then 100.0
    else
      var v0 := prev + d as real;
      var v1 := if v0 < 0.0 then 0.0 else v0;
      if v1 > maxOverride * 100.0 then maxOverride * 100.0 else v1
  }

  /** The spindle speed after one wheel update in RPM mode. */
  function RpmTrack(prev: real, d: int, reset: bool, cfg: Config): (v: real)
    ensures reset ==> v == cfg.spindleDefaultSpeed
    ensures !reset && cfg.spindleMaxSpeed >= 0.0 ==> 0.0 <= v <= cfg.spindleMaxSpeed
    ensures !reset && 0.0 < prev + d as real * cfg.spindleIncrement <= cfg.spindleMaxSpeed ==>
      v == prev + d as real * cfg.spindleIncrement
    ensures !reset && prev + d as real * cfg.spindleIncrement > cfg.spindleMaxSpeed ==> v == cfg.spindleMaxSpeed
    ensures !reset && prev + d as real * cfg.spindleIncrement <= 0.0 && cfg.spindleMaxSpeed >= 0.0 ==> v == 0.0
  {
    if reset then cfg.spindleDefaultSpeed
    else
      var v0 := prev + d as real * cfg.spindleIncrement;
      var v1 := if v0 <= 0.0 then 0.0 else v0;
      if v1 > cfg.spindleMaxSpeed then cfg.spindleMaxSpeed else v1
  }

  /** The maximum or jog velocity after one wheel update: a step of d/20,
      kept within [0, velocityLimit]; the default velocity on reset. */
  function VelocityTrack(prev: real, d: int, reset: bool, cfg: Config): (v: real)
    ensures reset ==> v == cfg.defaultVelocity
    ensures !reset && cfg.velocityLimit >= 0.0 ==> 0.0 <= v <= cfg.velocityLimit
    ensures !reset && 0.0 <= prev + d as real / 20.0 <= cfg.velocityLimit ==> v == prev + d as real / 20.0
    ensures !reset && prev + d as real / 20.0 > cfg.velocityLimit ==> v == cfg.velocityLimit
    ensures !reset && prev + d as real / 20.0 < 0.0 && cfg.velocityLimit >= 0.0 ==> v == 0.0
  {
    if reset then cfg.defaultVelocity
    else
      var v0 := prev + d as real / 20.0;
      var v1 := if v0 < 0.0 then 0.0 else v0;
      if v1 > cfg.velocityLimit then cfg.velocityLimit else v1
  }

  /** spindle_faster: one increment, but only while below the maximum, so the
      speed can end up to one increment above it. */
  function FasterSpeed(v: real, cfg: Config): (r: real)
    ensures v < cfg.spindleMaxSpeed ==> r == v + cfg.spindleIncrement
    ensures v >= cfg.spindleMaxSpeed ==> r == v
    ensures cfg.spindleIncrement >= 0.0 ==> r <= if v < cfg.spindleMaxSpeed then cfg.spindleMaxSpeed + cfg.spindleIncrement else v
  {
    if v < cfg.spindleMaxSpeed then v + cfg.spindleIncrement else v
  }

  /** spindle_slower: one increment down, but only while above 0, so the
      speed can end up to one increment below 0. */
  function SlowerSpeed(v: real, cfg: Config): (r: real)
    ensures v > 0.0 ==> r == v - cfg.spindleIncrement
    ensures v <= 0.0 ==> r == v
    ensures cfg.spindleIncrement >= 0.0 ==> r >= if v > 0.0 then -cfg.spindleIncrement else v
  {
    if v > 0.0 then v - cfg.spindleIncrement else v
  }

  /** The faster/slower buttons can overshoot the range they guard. */
  lemma SpindleButtonsOvershoot()
    ensures FasterSpeed(950.0, Config(1.2, 1.2, 10.0, 5.0, 500.0, 100.0, 1000.0)) == 1050.0
    ensures SlowerSpeed(50.0, Config(1.2, 1.2, 10.0, 5.0, 500.0, 100.0, 1000.0)) == -50.0
  {
  }

  // ---------------------------------------------------------------------
  // trivkins and the machine units

  /** Index of the first occurrence of `t` in `s` at or after `k`. */
  function FindFrom(s: string, t: string, k: nat): (r: Option<nat>)
    decreases |s| - k
    ensures r.Some? ==>
      k <= r.value && OccursAt(s, t, r.value) && forall j :: k <= j < r.value ==> !OccursAt(s, t, j)
    ensures r.None? ==> forall j :: k <= j ==> !OccursAt(s, t, j)
  {
    if k + |t| > |s| then None
    else if s[k..k + |t|] == t then Some(k)
    else FindFrom(s, t, k + 1)
  }

  function Find(s: string, t: string): (r: Option<nat>)
    ensures r.Some? ==> OccursAt(s, t, r.value) && forall j :: 0 <= j < r.value ==> !OccursAt(s, t, j)
    ensures r.None? ==> forall j :: 0 <= j ==> !OccursAt(s, t, j)
  {
    FindFrom(s, t, 0)
  }

  /** `s.replace(" ", "")`. */
  function RemoveSpaces(s: string): (r: string)
    ensures forall c :: c in r <==> c in s && c != ' '
    ensures |r| <= |s|
  {
    if s == [] then []
    else (if s[0] == ' ' then [] else [s[0]]) + RemoveSpaces(s[1..])
  }

  /** `s.split(sep)[1]`: the text between the first and the second
      occurrence of `sep` (or the end); None where Python raises IndexError. */
  function SecondField(s: string, sep: string): (r: Option<string>)
    requires sep != []
    ensures r.None? <==> Find(s, sep).None?
    ensures r.Some? ==> Find(s[Find(s, sep).value + |sep|..], sep) == None ==>
      r.value == s[Find(s, sep).value + |sep|..]
    ensures r.Some? ==>
      var start := Find(s, sep).value + |sep|;
      var end := start + |r.value|;
      && end <= |s| && r.value == s[start..end]
      && (forall j :: start <= j < end ==> !OccursAt(s, sep, j))
      && (end == |s| || OccursAt(s, sep, end))
  {
    match Find(s, sep)
    case None => None
    case Some(i) =>
      var rest := s[i + |sep|..];
      match Find(rest, sep)
      case None =>
        OccursInSuffix(s, sep, i + |sep|);
        Some(rest)
      case Some(j) =>
        OccursInSuffix(s, sep, i + |sep|);
        Some(rest[..j])
  }

  /** An occurrence in a suffix is an occurrence in the whole text, shifted. */
  lemma OccursInSuffix(s: string, t: string, k: nat)
    requires k <= |s|
    ensures forall j :: k <= j ==> (OccursAt(s[k..], t, j - k) <==> OccursAt(s, t, j))
  {
    forall j | k <= j
      ensures OccursAt(s[k..], t, j - k) <==> OccursAt(s, t, j)
    {
      if j + |t| <= |s| {
        assert s[k..][j - k..j - k + |t|] == s[j..j + |t|];
      }
    }
  }

  const DefaultCoordinates: string := "XYZABCUVW"

  /** trivkins: the axis letters of `coordinates=` in the KINS section's
      KINEMATICS entry, or all nine axes; None stands for the IndexError
      raised when the word "coordinates" occurs but "coordinates=" does
      not once spaces are removed. */
  function Trivkins(kins: Option<string>): (r: Option<string>)
    ensures kins.None? || kins.value == [] || Find(kins.value, "coordinates").None? ==>
      r == Some(DefaultCoordinates)
    ensures r.Some? ==> forall i :: 0 <= i < |r.value| ==> !('a' <= r.value[i] <= 'z')
    ensures r.None? <==>
      kins.Some? && Find(kins.value, "coordinates").Some? && Find(RemoveSpaces(kins.value), "coordinates=").None?
    ensures r.Some? && kins.Some? && kins.value != [] && Find(kins.value, "coordinates").Some? ==>
      r.value == Upper(SecondField(RemoveSpaces(kins.value), "coordinates=").value)
  {
    if kins.Some? && kins.value != [] && Find(kins.value, "coordinates").Some? then
      match SecondField(RemoveSpaces(kins.value), "coordinates=")
      case None => None
      case Some(f) => Some(Upper(f))
    else Some(DefaultCoordinates)
  }

  /** Removing spaces from a text without spaces changes nothing. */
  lemma {:induction false} RemoveSpacesNoop(s: string)
    requires ' ' !in s
    ensures RemoveSpaces(s) == s
  {
    if s != [] {
      RemoveSpacesNoop(s[1..]);
      assert s == [s[0]] + s[1..];
    }
  }

  /** A text that starts with `t` finds it at 0. */
  lemma FindAtStart(s: string, t: string)
    requires |t| <= |s| && s[..|t|] == t
    ensures Find(s, t) == Some(0)
  {
  }

  /** A text shorter than `t` cannot contain it. */
  lemma FindTooShort(s: string, t: string)
    requires |s| < |t|
    ensures Find(s, t) == None
  {
  }

  /** An entry without spaces that starts with `coordinates=` and has no
      second one yields its upper-cased tail. */
  lemma TrivkinsLeading(f: string)
    requires ' ' !in f && |f| < 12
    ensures Trivkins(Some("coordinates=" + f)) == Some(Upper(f))
  {
    var s := "coordinates=" + f;
    assert ' ' !in s;
    RemoveSpacesNoop(s);
    FindAtStart(s, "coordinates");
    FindAtStart(s, "coordinates=");
    assert s[12..] == f;
    FindTooShort(f, "coordinates=");
  }

  /** The axis letters are taken from the entry and upper-cased. */
  lemma TrivkinsExample()
    ensures Trivkins(Some("coordinates=xz")) == Some("XZ")
  {
    var f := "xz";
    TrivkinsLeading(f);
    assert "coordinates=" + f == "coordinates=xz";
    var u := Upper(f);
    assert |u| == 2 && u[0] == 'X' && u[1] == 'Z';
    assert u == "XZ";
  }

  /** The units test of the constructor: TRAJ LINEAR_UNITS, or failing that
      AXIS_X UNITS, set to "mm", "metric" or "1.0". */
  function MachineUnitsMm(trajUnits: Option<string>, axisXUnits: Option<string>): (mm: bool)
    ensures trajUnits.Some? ==> (mm <==> trajUnits.value in {"mm", "metric", "1.0"})
    ensures trajUnits.None? ==> (mm <==> axisXUnits.Some? && axisXUnits.value in {"mm", "metric", "1.0"})
  {
    var units := if trajUnits.Some? then trajUnits else axisXUnits;
    units == Some("mm") || units == Some("metric") || units == Some("1.0")
  }

  /** The display conversion factors of the nine axes: linear axes X, Y, Z
      and U, V, W convert by 25.4, rotary axes A, B, C by 1. */
  function Conversion(mm: bool): (c: seq<real>)
    ensures |c| == 9
    ensures forall i :: 3 <= i < 6 ==> c[i] == 1.0
    ensures forall i :: 0 <= i < 9 && !(3 <= i < 6) ==> c[i] == (if mm then 1.0 / 25.4 else 25.4)
  {
    var lin := if mm then 1.0 / 25.4 else 25.4;
    [lin, lin, lin, 1.0, 1.0, 1.0, lin, lin, lin]
  }

  // ---------------------------------------------------------------------

  class Touchy {
    const cfg: Config
    const chooser: FileChooser

    var wheel: Wheel
    /** Set while the screen updates its own buttons, so that the resulting
        callbacks do not count as user requests. */
    var radiobuttonMask: bool
    var tab: int
    var foVal: real
    var soVal: real
    var mvVal: real
    var jogVelVal: real
    var spindleSpeedVal: real
    var currentFile: string
    var trace: seq<MachineCommand>

    ghost predicate Valid()
      reads this, chooser
    {
      chooser.Valid()
    }

    /** The state the constructor leaves: the maximum-velocity preference
        seeds both velocity tracks, the spindle speed preference the speed,
        and the loaded program the current file. The machine receives the
        jog velocity, block delete and optional stop as the preferences say,
        the empty program, and then the maximum velocity. */
    constructor (cfg: Config, chooser: FileChooser, maxvelPref: real, spindleSpeedPref: real,
                 blockdelPref: bool, opstopPref: bool, emcFile: string)
      requires chooser.Valid()
      ensures Valid()
      ensures this.cfg == cfg && this.chooser == chooser
      ensures wheel == Fo && !radiobuttonMask && tab == 0
      ensures foVal == 100.0 && soVal == 100.0
      ensures mvVal == maxvelPref && jogVelVal == maxvelPref && spindleSpeedVal == spindleSpeedPref
      ensures currentFile == emcFile
      ensures trace == [ContinuousJogVelocity(maxvelPref), BlockDelete(blockdelPref), OptionalStop(opstopPref),
                        OpenEmptyProgram, MaxVelocity(maxvelPref)]
    {
      this.cfg := cfg;
      this.chooser := chooser;
      wheel := Fo;
      radiobuttonMask := false;
      tab := 0;
      foVal := 100.0;
      soVal := 100.0;
      mvVal := maxvelPref;
      jogVelVal := maxvelPref;
      spindleSpeedVal := spindleSpeedPref;
      currentFile := emcFile;
      trace := [ContinuousJogVelocity(maxvelPref)];
      trace := trace + [if blockdelPref then BlockDelete(true) else BlockDelete(false)];
      trace := trace + [if opstopPref then OptionalStop(true) else OptionalStop(false)];
      trace := trace + [OpenEmptyProgram, MaxVelocity(maxvelPref)];
    }

    /** The toggled handlers fo, so, rpm, mv and scrolling: a request for
        mode `w` is honoured only while the mask is clear. */
    method RequestMode(w: Wheel)
      modifies this`wheel
      ensures radiobuttonMask ==> wheel == old(wheel)
      ensures !radiobuttonMask ==> wheel == w
    {
      if radiobuttonMask {
        return;
      }
      wheel := w;
    }

    /** tabselect: the notebook switched to page `t`. */
    method SelectTab(t: int)
      modifies this`tab
      ensures tab == t
    {
      tab := t;
    }

    method SpindleFaster()
      modifies this`spindleSpeedVal, this`trace
      ensures spindleSpeedVal == FasterSpeed(old(spindleSpeedVal), cfg)
      ensures trace == old(trace) +
        (if old(spindleSpeedVal) < cfg.spindleMaxSpeed then [SpindleSetSpeed(spindleSpeedVal)] else [])
    {
      if spindleSpeedVal < cfg.spindleMaxSpeed {
        spindleSpeedVal := spindleSpeedVal + cfg.spindleIncrement;
        trace := trace + [SpindleSetSpeed(spindleSpeedVal)];
      }
    }

    method SpindleSlower()
      modifies this`spindleSpeedVal, this`trace
      ensures spindleSpeedVal == SlowerSpeed(old(spindleSpeedVal), cfg)
      ensures trace == old(trace) + (if old(spindleSpeedVal) > 0.0 then [SpindleSetSpeed(spindleSpeedVal)] else [])
    {
      if spindleSpeedVal > 0.0 {
        spindleSpeedVal := spindleSpeedVal - cfg.spindleIncrement;
        trace := trace + [SpindleSetSpeed(spindleSpeedVal)];
      }
    }

    /** fileselect: label `n` of the chooser was touched; the wheel switches to
        scrolling and the chosen path (or "") becomes the current file. */
    method FileSelect(n: nat)
      requires Valid()
      modifies this`wheel, this`currentFile, this`trace, chooser`selected, chooser`commands
      ensures Valid()
      ensures wheel == Scrolling
      ensures var idx := chooser.fileoffset + n;
        if idx < |chooser.files| && chooser.files[idx].path.Some? then
          && currentFile == chooser.files[idx].path.value
          && chooser.selected == idx
          && chooser.commands == old(chooser.commands) +
               [SetModeMdi, ProgramOpen(currentFile), ListingReadFile(currentFile)]
        else
          currentFile == "" && chooser.selected == old(chooser.selected) && chooser.commands == old(chooser.commands)
      ensures trace == old(trace) + [ClearStartLine]
    {
      wheel := Scrolling;
      currentFile := chooser.Select(n);
      trace := trace + [ClearStartLine];
    }

    /** periodic_status: when the machine reports a program other than the
        current file, remember it and show it in the chooser; the mask is
        set for the duration and clear afterwards. */
    method PeriodicStatus(emcFile: string, fs: FileSystem)
      requires Valid()
      modifies this`radiobuttonMask, this`currentFile,
        chooser`files, chooser`selected, chooser`fileoffset, chooser`commands
      ensures Valid()
      ensures !radiobuttonMask && currentFile == emcFile
      ensures old(currentFile) == emcFile ==>
        unchanged(chooser`files, chooser`selected, chooser`fileoffset, chooser`commands)
      ensures old(currentFile) != emcFile ==>
        && chooser.files == Catalog(chooser.localDir, chooser.mediaRoot, fs)
        && chooser.selected == Lookup(chooser.files, emcFile)
        && (chooser.selected == -1 ==>
              chooser.fileoffset == old(chooser.fileoffset) && chooser.commands == old(chooser.commands))
        && (chooser.selected >= 0 ==>
              && chooser.fileoffset == PageStart(chooser.selected, chooser.numlabels)
              && chooser.commands == old(chooser.commands) + [ListingReadFile(emcFile)])
    {
      radiobuttonMask := true;
      if currentFile != emcFile {
        currentFile := emcFile;
        chooser.SelectAndShow(currentFile, fs);
      }
      radiobuttonMask := false;
    }

    /** Takes the overrides reported by the machine. */
    method SyncFromStatus(st: MachineStatus)
      modifies this`foVal, this`soVal, this`mvVal
      ensures foVal == st.feedrate * 100.0 && soVal == st.spindleOverride * 100.0 && mvVal == st.maxVelocity
    {
      foVal := st.feedrate * 100.0;
      soVal := st.spindleOverride * 100.0;
      mvVal := st.maxVelocity;
    }

    method ReconcileWheel(manual: bool)
      modifies this`wheel
      ensures wheel == Reconcile(old(wheel), tab, manual)
    {
      if tab != 3 && wheel == Scrolling {
        wheel := Fo;
      }
      if manual {
        if wheel == Fo || wheel == So {
          wheel := Mv;
        }
      } else {
        if wheel == Rpm {
          wheel := Fo;
        }
      }
    }

    /** The toggled callbacks that updating the buttons with set_active
        fires, one per button whose state changes; with the mask set none of
        them changes the mode. */
    method EchoToggles(echoes: seq<Wheel>)
      requires radiobuttonMask
      modifies this`wheel
      ensures wheel == old(wheel)
    {
      for k := 0 to |echoes|
        invariant wheel == old(wheel)
      {
        RequestMode(echoes[k]);
      }
    }

    method WheelFoUpdate(d: int, reset: bool)
      modifies this`foVal, this`trace
      ensures foVal == OverrideTrack(old(foVal), d, reset, cfg.maxFeedOverride)
      ensures trace == old(trace) + (if reset || d != 0 then [FeedOverride(foVal)] else [])
    {
      if reset {
        foVal := 100.0;
        trace := trace + [FeedOverride(foVal)];
      } else {
        foVal := foVal + d as real;
        if foVal < 0.0 {
          foVal := 0.0;
        }
        var maxFeedOverride := cfg.maxFeedOverride * 100.0;
        if foVal > maxFeedOverride {
          foVal := maxFeedOverride;
        }
        if d != 0 {
          trace := trace + [FeedOverride(foVal)];
        }
      }
    }

    method WheelSoUpdate(d: int, reset: bool)
      modifies this`soVal, this`trace
      ensures soVal == OverrideTrack(old(soVal), d, reset, cfg.maxSpindleOverride)
      ensures trace == old(trace) + (if reset || d != 0 then [SpindleOverride(soVal)] else [])
    {
      if reset {
        soVal := 100.0;
        trace := trace + [SpindleOverride(soVal)];
      } else {
        soVal := soVal + d as real;
        if soVal < 0.0 {
          soVal := 0.0;
        }
        var maxSpindleOverride := cfg.maxSpindleOverride * 100.0;
        if soVal > maxSpindleOverride {
          soVal := maxSpindleOverride;
        }
        if d != 0 {
          trace := trace + [SpindleOverride(soVal)];
        }
      }
    }

    /** The speed is sent whenever it changed, on reset as well. */
    method WheelRpmUpdate(d: int, reset: bool)
      modifies this`spindleSpeedVal, this`trace
      ensures spindleSpeedVal == RpmTrack(old(spindleSpeedVal), d, reset, cfg)
      ensures trace == old(trace) +
        (if spindleSpeedVal != old(spindleSpeedVal) then [SpindleSetSpeed(spindleSpeedVal)] else [])
    {
      var currentSpeed := spindleSpeedVal;
      if reset {
        spindleSpeedVal := cfg.spindleDefaultSpeed;
      } else {
        spindleSpeedVal := spindleSpeedVal + d as real * cfg.spindleIncrement;
        if spindleSpeedVal <= 0.0 {
          spindleSpeedVal := 0.0;
        }
        if spindleSpeedVal > cfg.spindleMaxSpeed {
          spindleSpeedVal := cfg.spindleMaxSpeed;
        }
      }
      if currentSpeed != spindleSpeedVal {
        trace := trace + [SpindleSetSpeed(spindleSpeedVal)];
      }
    }

    method WheelMvUpdate(d: int, reset: bool)
      modifies this`mvVal, this`trace
      ensures mvVal == VelocityTrack(old(mvVal), d, reset, cfg)
      ensures trace == old(trace) + (if reset || d != 0 then [MaxVelocity(mvVal)] else [])
    {
      if reset {
        mvVal := cfg.defaultVelocity;
        trace := trace + [MaxVelocity(mvVal)];
      } else {
        var increment := d as real / 20.0;
        mvVal := mvVal + increment;
        if mvVal < 0.0 {
          mvVal := 0.0;
        }
        if mvVal > cfg.velocityLimit {
          mvVal := cfg.velocityLimit;
        }
        if d != 0 {
          trace := trace + [MaxVelocity(mvVal)];
        }
      }
    }

    method WheelJogUpdate(d: int, reset: bool)
      modifies this`jogVelVal, this`trace
      ensures jogVelVal == VelocityTrack(old(jogVelVal), d, reset, cfg)
      ensures trace == old(trace) + (if reset || d != 0 then [ContinuousJogVelocity(jogVelVal)] else [])
    {
      if reset {
        jogVelVal := cfg.defaultVelocity;
        trace := trace + [ContinuousJogVelocity(jogVelVal)];
      } else {
        var increment := d as real / 20.0;
        jogVelVal := jogVelVal + increment;
        if jogVelVal < 0.0 {
          jogVelVal := 0.0;
        }
        if jogVelVal > cfg.velocityLimit {
          jogVelVal := cfg.velocityLimit;
        }
        if d != 0 {
          trace := trace + [ContinuousJogVelocity(jogVelVal)];
        }
      }
    }

    /** Routes the wheel delta `d` to the track of the current mode; exactly
        one track moves, and scrolling moves none. */
    method Dispatch(d: int, reset: bool, manual: bool)
      modifies this`foVal, this`soVal, this`spindleSpeedVal, this`mvVal, this`jogVelVal, this`trace
      ensures foVal == (if wheel == Fo then OverrideTrack(old(foVal), d, reset, cfg.maxFeedOverride) else old(foVal))
      ensures soVal == (if wheel == So then OverrideTrack(old(soVal), d, reset, cfg.maxSpindleOverride) else old(soVal))
      ensures spindleSpeedVal ==
        (if wheel == Rpm then RpmTrack(old(spindleSpeedVal), d, reset, cfg) else old(spindleSpeedVal))
      ensures mvVal == (if wheel == Mv && !manual then VelocityTrack(old(mvVal), d, reset, cfg) else old(mvVal))
      ensures jogVelVal == (if wheel == Mv && manual then VelocityTrack(old(jogVelVal), d, reset, cfg) else old(jogVelVal))
      ensures wheel == Fo ==> trace == old(trace) + (if reset || d != 0 then [FeedOverride(foVal)] else [])
      ensures wheel == So ==> trace == old(trace) + (if reset || d != 0 then [SpindleOverride(soVal)] else [])
      ensures wheel == Rpm ==>
        trace == old(trace) + (if spindleSpeedVal != old(spindleSpeedVal) then [SpindleSetSpeed(spindleSpeedVal)] else [])
      ensures wheel == Mv && !manual ==> trace == old(trace) + (if reset || d != 0 then [MaxVelocity(mvVal)] else [])
      ensures wheel == Mv && manual ==>
        trace == old(trace) + (if reset || d != 0 then [ContinuousJogVelocity(jogVelVal)] else [])
      ensures wheel == Scrolling ==> trace == old(trace) + (if d != 0 then [ListingNext(d * ScrollFactor())] else [])
    {
      if wheel == Fo {
        WheelFoUpdate(d, reset);
      }
      if wheel == So {
        WheelSoUpdate(d, reset);
      }
      if wheel == Rpm {
        WheelRpmUpdate(d, reset);
      }
      if wheel == Mv {
        if manual {
          WheelJogUpdate(d, reset);
        } else {
          WheelMvUpdate(d, reset);
        }
      }
      if wheel == Scrolling {
        var d0 := d * Pow10(2 - WheelInc);
        if d != 0 {
          trace := trace + [ListingNext(d0)];
        }
      }
    }

    /** periodic_radiobuttons: take the machine's overrides, reset the
        spindle index pin, make the mode legal, update the buttons under the
        mask, then apply the wheel delta `d` (or the reset button). */
    method PeriodicRadiobuttons(st: MachineStatus, manual: bool, echoes: seq<Wheel>, d: int, reset: bool)
      modifies this`wheel, this`radiobuttonMask, this`foVal, this`soVal, this`mvVal,
        this`jogVelVal, this`spindleSpeedVal, this`trace
      ensures !radiobuttonMask
      ensures wheel == Reconcile(old(wheel), tab, manual)
      ensures Legal(wheel, tab, manual)
      ensures foVal == (if wheel == Fo then OverrideTrack(st.feedrate * 100.0, d, reset, cfg.maxFeedOverride)
                        else st.feedrate * 100.0)
      ensures soVal == (if wheel == So then OverrideTrack(st.spindleOverride * 100.0, d, reset, cfg.maxSpindleOverride)
                        else st.spindleOverride * 100.0)
      ensures mvVal == (if wheel == Mv && !manual then VelocityTrack(st.maxVelocity, d, reset, cfg) else st.maxVelocity)
      ensures jogVelVal == (if wheel == Mv && manual then VelocityTrack(old(jogVelVal), d, reset, cfg) else old(jogVelVal))
      ensures spindleSpeedVal ==
        (if wheel == Rpm then RpmTrack(old(spindleSpeedVal), d, reset, cfg) else old(spindleSpeedVal))
      ensures |trace| >= |old(trace)| + 1 && trace[..|old(trace)| + 1] == old(trace) + [ResetSpindle(0)]
      ensures wheel == Fo ==>
        trace == old(trace) + [ResetSpindle(0)] + (if reset || d != 0 then [FeedOverride(foVal)] else [])
      ensures wheel == So ==>
        trace == old(trace) + [ResetSpindle(0)] + (if reset || d != 0 then [SpindleOverride(soVal)] else [])
      ensures wheel == Rpm ==>
        trace == old(trace) + [ResetSpindle(0)] +
          (if spindleSpeedVal != old(spindleSpeedVal) then [SpindleSetSpeed(spindleSpeedVal)] else [])
      ensures wheel == Mv && !manual ==>
        trace == old(trace) + [ResetSpindle(0)] + (if reset || d != 0 then [MaxVelocity(mvVal)] else [])
      ensures wheel == Mv && manual ==>
        trace == old(trace) + [ResetSpindle(0)] + (if reset || d != 0 then [ContinuousJogVelocity(jogVelVal)] else [])
      ensures wheel == Scrolling ==>
        trace == old(trace) + [ResetSpindle(0)] + (if d != 0 then [ListingNext(d * 100)] else [])
    {
      radiobuttonMask := true;
      SyncFromStatus(st);
      trace := trace + [ResetSpindle(0)];
      ghost var synced := trace;
      ReconcileWheel(manual);
      EchoToggles(echoes);
      radiobuttonMask := false;
      Dispatch(d, reset, manual);
      assert trace[..|synced|] == synced;
    }
  }
}
