/** The jog/feed mixer HAL component: a joystick (velocity) and a hand
    wheel (position) drive one accumulated count, to which the spindle-synced
    feed is added while a feed direction button is held. */
module JogFeed {
  import opened Common

  /** The input pins of one instance, as read in one servo period. */
  datatype Inputs = Inputs(
    mpgIn: int,
    mpgScale: real,
    joyIn: real,
    joyBtn: bool,
    feedPositive: bool,
    feedNegative: bool,
    spindlePos: real,
    feedPerRev: real)

  /** The four read/write parameters. */
  datatype Params = Params(joyDeadband: real, joySpeedSlow: real, joySpeedFast: real, jogScale: real)

  /** The parameter values set when an instance is created. */
  const DefaultParams := Params(0.05, 100.0, 5000.0, 0.0001)

  /** Below this jog scale the feed term is switched off. */
  const MinJogScale: real := 0.0000001

  /** Internal variables and the two bit outputs of one instance; the count
      output is the truncated accumulator (see Update). */
  datatype State = State(
    lastMpg: int,
    accumulator: real,
    lastSpindlePos: real,
    firstRun: bool,
    lastBtnState: bool,
    fastMode: bool,
    velModeOut: bool,
    fastModeOut: bool)

  /** getJoyValue: inside the open dead band the stick reads 0; outside it
      the dead band is taken off the magnitude. */
  function JoyValue(raw: real, deadband: real): (r: real)
    ensures -deadband < raw < deadband ==> r == 0.0
    ensures deadband >= 0.0 ==> (r == 0.0 <==> -deadband <= raw <= deadband)
    ensures deadband >= 0.0 ==> (r > 0.0 <==> raw > deadband) && (r < 0.0 <==> raw < -deadband)
    ensures deadband >= 0.0 && raw > deadband ==> r == raw - deadband
    ensures deadband >= 0.0 && raw < -deadband ==> r == raw + deadband
  {
    if -deadband < raw < deadband then 0.0
    else if raw > 0.0 then raw - deadband
    else raw + deadband
  }

  /** getFeedDirection: the positive button wins over the negative one. */
  function FeedDirection(positive: bool, negative: bool): (r: int)
    ensures -1 <= r <= 1
    ensures r == 1 <==> positive
    ensures r == -1 <==> !positive && negative
    ensures r == 0 <==> !positive && !negative
  {
    if positive then 1 else if negative then -1 else 0
  }

  /** The motion getJogAccumulatedValue contributes: the stick's velocity
      step, or else the hand wheel's counts since `lastMpg` times the scale. */
  function JogDelta(joyVal: real, fastMode: bool, p: Params, mpgIn: int, lastMpg: int, mpgScale: real): (r: real)
    ensures joyVal == 0.0 && mpgIn == lastMpg ==> r == 0.0
    ensures joyVal == 0.0 && mpgScale == 0.0 ==> r == 0.0
    ensures joyVal != 0.0 ==> r == joyVal * (if fastMode then p.joySpeedFast else p.joySpeedSlow)
    ensures joyVal == 0.0 ==> r == (mpgIn - lastMpg) as real * mpgScale
  {
    if joyVal != 0.0 then joyVal * (if fastMode then p.joySpeedFast else p.joySpeedSlow)
    else (mpgIn - lastMpg) as real * mpgScale
  }

  /** The motion getFeedValue contributes: spindle revolutions since the last
      reading times feed per revolution, in counts, in the held direction. */
  function FeedValue(spindlePos: real, lastSpindlePos: real, feedPerRev: real, jogScale: real, dir: int): (r: real)
    requires -1 <= dir <= 1
    ensures jogScale < MinJogScale || dir == 0 || spindlePos == lastSpindlePos ==> r == 0.0
  {
    if jogScale < MinJogScale then 0.0
    else if dir != 0 then (spindlePos - lastSpindlePos) * feedPerRev * (1.0 / jogScale) * dir as real
    else 0.0
  }

  /** Counts per unit of spindle travel while the feed runs in direction `dir`. */
  function FeedFactor(feedPerRev: real, jogScale: real, dir: int): real
    requires jogScale >= MinJogScale
  {
    feedPerRev * (1.0 / jogScale) * dir as real
  }

  /** With the feed switched on, the counts returned are the spindle travel
      times feed per revolution over the jog scale, in the held direction. */
  lemma FeedValueScaled(spindlePos: real, lastSpindlePos: real, feedPerRev: real, jogScale: real, dir: int)
    requires -1 <= dir <= 1 && jogScale >= MinJogScale
    ensures FeedValue(spindlePos, lastSpindlePos, feedPerRev, jogScale, dir)
      == (spindlePos - lastSpindlePos) * FeedFactor(feedPerRev, jogScale, dir)
    ensures FeedValue(spindlePos, lastSpindlePos, feedPerRev, jogScale, dir) * jogScale
      == (spindlePos - lastSpindlePos) * feedPerRev * dir as real
  {
    var t := spindlePos - lastSpindlePos;
    var q := 1.0 / jogScale;
    assert q * jogScale == 1.0;
    assert t * feedPerRev * q * dir as real == t * (feedPerRev * q * dir as real);
    assert t * feedPerRev * q * dir as real * jogScale == t * feedPerRev * dir as real * (q * jogScale);
  }

  /** One call of update(). */
  function Step(s: State, p: Params, inp: Inputs): (r: State)
    ensures !r.firstRun && r.lastMpg == inp.mpgIn
    ensures r.lastBtnState == inp.joyBtn
    ensures r.fastMode == (if inp.joyBtn && !s.lastBtnState then !s.fastMode else s.fastMode)
    ensures r.fastModeOut == r.fastMode
    ensures r.velModeOut <==> JoyValue(inp.joyIn, p.joyDeadband) != 0.0
    ensures p.jogScale >= MinJogScale ==> r.lastSpindlePos == inp.spindlePos
    ensures p.jogScale < MinJogScale ==> r.lastSpindlePos == (if s.firstRun then inp.spindlePos else s.lastSpindlePos)
    ensures s.firstRun && JoyValue(inp.joyIn, p.joyDeadband) == 0.0 ==> r.accumulator == 0.0
    ensures s.firstRun && JoyValue(inp.joyIn, p.joyDeadband) != 0.0 ==>
      r.accumulator == JoyValue(inp.joyIn, p.joyDeadband) * (if r.fastMode then p.joySpeedFast else p.joySpeedSlow)
    ensures !s.firstRun ==>
      r.accumulator == s.accumulator +
        (JogDelta(JoyValue(inp.joyIn, p.joyDeadband), r.fastMode, p, inp.mpgIn, s.lastMpg, inp.mpgScale)
         + FeedValue(inp.spindlePos, s.lastSpindlePos, inp.feedPerRev, p.jogScale,
                     FeedDirection(inp.feedPositive, inp.feedNegative)))
  {
    var s0 := if s.firstRun then s.(lastMpg := inp.mpgIn, lastSpindlePos := inp.spindlePos, accumulator := 0.0, firstRun := false)
              else s;
    var fast := if inp.joyBtn && !s0.lastBtnState then !s0.fastMode else s0.fastMode;
    var joy := JoyValue(inp.joyIn, p.joyDeadband);
    var move := JogDelta(joy, fast, p, inp.mpgIn, s0.lastMpg, inp.mpgScale);
    var spos := if p.jogScale < MinJogScale then s0.lastSpindlePos else inp.spindlePos;
    var feed := FeedValue(inp.spindlePos, s0.lastSpindlePos, inp.feedPerRev, p.jogScale,
                          FeedDirection(inp.feedPositive, inp.feedNegative));
    var acc := s0.accumulator + (move + feed);
    assert s.firstRun ==> feed == 0.0 && acc == move;
    assert !s.firstRun ==> s0 == s;
    State(inp.mpgIn, acc, spos, false, inp.joyBtn, fast, joy != 0.0, fast)
  }

  /** update() called once for each element of `ins`, in order. */
  function Run(s: State, p: Params, ins: seq<Inputs>): (r: State)
    ensures ins != [] ==> !r.firstRun && r.lastMpg == ins[|ins| - 1].mpgIn
    ensures ins == [] ==> r == s
    decreases |ins|
  {
    if ins == [] then s else Run(Step(s, p, ins[0]), p, ins[1..])
  }

  /** A tick on which only the hand wheel can move the axis. */
  predicate WheelOnly(p: Params, inp: Inputs, scale: real)
  {
    JoyValue(inp.joyIn, p.joyDeadband) == 0.0 && !inp.feedPositive && !inp.feedNegative && inp.mpgScale == scale
  }

  /** One hand-wheel-only tick adds the wheel's counts times the scale. */
  lemma WheelStep(s: State, p: Params, inp: Inputs, scale: real)
    requires !s.firstRun && WheelOnly(p, inp, scale)
    ensures !Step(s, p, inp).firstRun && Step(s, p, inp).lastMpg == inp.mpgIn
    ensures Step(s, p, inp).accumulator == s.accumulator + (inp.mpgIn - s.lastMpg) as real * scale
  {
  }

  /** A tick with the stick out of the dead band and the feed off adds the
      stick's velocity step at the speed of the current range; the hand
      wheel's counts are taken as the new baseline and otherwise dropped, so
      any other wheel reading gives the same accumulator. */
  lemma JoystickStep(s: State, p: Params, inp: Inputs, otherMpg: int)
    requires !s.firstRun && JoyValue(inp.joyIn, p.joyDeadband) != 0.0
    requires !inp.feedPositive && !inp.feedNegative
    ensures var r := Step(s, p, inp);
      && r.accumulator == s.accumulator
           + JoyValue(inp.joyIn, p.joyDeadband) * (if r.fastMode then p.joySpeedFast else p.joySpeedSlow)
      && r.lastMpg == inp.mpgIn && r.velModeOut
    ensures Step(s, p, inp.(mpgIn := otherMpg)).accumulator == Step(s, p, inp).accumulator
  {
  }

  lemma RunCons(s: State, p: Params, ins: seq<Inputs>)
    requires ins != []
    ensures Run(s, p, ins) == Run(Step(s, p, ins[0]), p, ins[1..])
    ensures |ins| == 1 ==> Run(s, p, ins) == Step(s, p, ins[0])
  {
  }

  lemma ScaledTravelAdds(a: int, b: int, c: int, scale: real)
    ensures (c - b) as real * scale + (b - a) as real * scale == (c - a) as real * scale
  {
    var x := (c - b) as real;
    var y := (b - a) as real;
    assert x * scale + y * scale == (x + y) * scale;
  }

  /** While only the hand wheel moves, running on from a started instance
      adds the wheel's net travel times the scale, whatever the steps. */
  lemma {:induction false} WheelTravelTelescopes(s: State, p: Params, ins: seq<Inputs>, scale: real)
    requires !s.firstRun
    requires forall i :: 0 <= i < |ins| ==> WheelOnly(p, ins[i], scale)
    ensures ins != [] ==>
      Run(s, p, ins).accumulator == s.accumulator + (ins[|ins| - 1].mpgIn - s.lastMpg) as real * scale
    decreases |ins|
  {
    if ins != [] {
      var s1 := Step(s, p, ins[0]);
      var m0 := ins[0].mpgIn;
      WheelStep(s, p, ins[0], scale);
      RunCons(s, p, ins);
      if |ins| > 1 {
        var rest := ins[1..];
        assert forall i :: 0 <= i < |rest| ==> WheelOnly(p, rest[i], scale) by {
          forall i | 0 <= i < |rest| ensures WheelOnly(p, rest[i], scale) {
            assert rest[i] == ins[i + 1];
          }
        }
        WheelTravelTelescopes(s1, p, rest, scale);
        var m := ins[|ins| - 1].mpgIn;
        assert rest[|rest| - 1] == ins[|ins| - 1];
        ScaledTravelAdds(s.lastMpg, m0, m, scale);
      }
    }
  }

  /** From power-up the first reading is the baseline: only the wheel's travel
      since the first tick is counted. */
  lemma {:induction false} WheelTravelFromStart(s: State, p: Params, ins: seq<Inputs>, scale: real)
    requires s.firstRun && ins != []
    requires forall i :: 0 <= i < |ins| ==> WheelOnly(p, ins[i], scale)
    ensures Run(s, p, ins).accumulator == (ins[|ins| - 1].mpgIn - ins[0].mpgIn) as real * scale
  {
    var s1 := Step(s, p, ins[0]);
    assert s1.accumulator == 0.0 && s1.lastMpg == ins[0].mpgIn && !s1.firstRun;
    assert Run(s, p, ins) == Run(s1, p, ins[1..]);
    if |ins| > 1 {
      WheelTravelTelescopes(s1, p, ins[1..], scale);
      assert ins[1..][|ins[1..]| - 1] == ins[|ins| - 1];
    }
  }

  /** A tick on which only the feed can move the axis, in direction `dir`. */
  predicate FeedOnly(p: Params, inp: Inputs, mpg: int, dir: int, feedPerRev: real)
  {
    && JoyValue(inp.joyIn, p.joyDeadband) == 0.0 && inp.mpgIn == mpg
    && FeedDirection(inp.feedPositive, inp.feedNegative) == dir && inp.feedPerRev == feedPerRev
  }

  /** One feed-only tick advances the spindle baseline and adds the feed. */
  lemma FeedStep(s: State, p: Params, inp: Inputs, dir: int, feedPerRev: real)
    requires !s.firstRun && p.jogScale >= MinJogScale && -1 <= dir <= 1
    requires FeedOnly(p, inp, s.lastMpg, dir, feedPerRev)
    ensures Step(s, p, inp).lastMpg == s.lastMpg && Step(s, p, inp).lastSpindlePos == inp.spindlePos
    ensures !Step(s, p, inp).firstRun
    ensures Step(s, p, inp).accumulator
      == s.accumulator + (inp.spindlePos - s.lastSpindlePos) * FeedFactor(feedPerRev, p.jogScale, dir)
  {
    FeedValueScaled(inp.spindlePos, s.lastSpindlePos, feedPerRev, p.jogScale, dir);
  }

  /** While the feed alone moves the axis, the counts added are the
      spindle's net travel times the feed factor, whatever the steps. */
  lemma {:induction false} FeedTravelTelescopes(s: State, p: Params, ins: seq<Inputs>, dir: int, feedPerRev: real)
    requires !s.firstRun && p.jogScale >= MinJogScale && -1 <= dir <= 1
    requires forall i :: 0 <= i < |ins| ==> FeedOnly(p, ins[i], s.lastMpg, dir, feedPerRev)
    ensures ins != [] ==>
      Run(s, p, ins).accumulator
        == s.accumulator + (ins[|ins| - 1].spindlePos - s.lastSpindlePos) * FeedFactor(feedPerRev, p.jogScale, dir)
    decreases |ins|
  {
    if ins != [] {
      var s1 := Step(s, p, ins[0]);
      var c := FeedFactor(feedPerRev, p.jogScale, dir);
      var x0 := ins[0].spindlePos;
      FeedStep(s, p, ins[0], dir, feedPerRev);
      RunCons(s, p, ins);
      if |ins| > 1 {
        var rest := ins[1..];
        assert forall i :: 0 <= i < |rest| ==> FeedOnly(p, rest[i], s1.lastMpg, dir, feedPerRev) by {
          forall i | 0 <= i < |rest| ensures FeedOnly(p, rest[i], s1.lastMpg, dir, feedPerRev) {
            assert rest[i] == ins[i + 1];
          }
        }
        FeedTravelTelescopes(s1, p, rest, dir, feedPerRev);
        var x := ins[|ins| - 1].spindlePos;
        assert rest[|rest| - 1] == ins[|ins| - 1];
        assert (x - x0) * c + (x0 - s.lastSpindlePos) * c == (x - s.lastSpindlePos) * c;
      }
    }
  }

  /** The first tick with the stick at rest only records the baselines. */
  lemma FirstStepIsBaseline(s: State, p: Params, inp: Inputs)
    requires s.firstRun && JoyValue(inp.joyIn, p.joyDeadband) == 0.0 && p.jogScale >= MinJogScale
    ensures Step(s, p, inp).accumulator == 0.0
    ensures Step(s, p, inp).lastMpg == inp.mpgIn && Step(s, p, inp).lastSpindlePos == inp.spindlePos
    ensures !Step(s, p, inp).firstRun
  {
  }

  /** From power-up the first spindle reading is the baseline for the feed. */
  lemma {:induction false} FeedTravelFromStart(s: State, p: Params, ins: seq<Inputs>, dir: int, feedPerRev: real)
    requires s.firstRun && ins != [] && p.jogScale >= MinJogScale && -1 <= dir <= 1
    requires forall i :: 0 <= i < |ins| ==> FeedOnly(p, ins[i], ins[0].mpgIn, dir, feedPerRev)
    ensures Run(s, p, ins).accumulator
      == (ins[|ins| - 1].spindlePos - ins[0].spindlePos) * FeedFactor(feedPerRev, p.jogScale, dir)
  {
    var s1 := Step(s, p, ins[0]);
    assert FeedOnly(p, ins[0], ins[0].mpgIn, dir, feedPerRev);
    FirstStepIsBaseline(s, p, ins[0]);
    RunCons(s, p, ins);
    if |ins| > 1 {
      var rest := ins[1..];
      assert forall i :: 0 <= i < |rest| ==> FeedOnly(p, rest[i], s1.lastMpg, dir, feedPerRev) by {
        forall i | 0 <= i < |rest| ensures FeedOnly(p, rest[i], s1.lastMpg, dir, feedPerRev) {
          assert rest[i] == ins[i + 1];
        }
      }
      FeedTravelTelescopes(s1, p, rest, dir, feedPerRev);
      assert rest[|rest| - 1] == ins[|ins| - 1];
    } else {
      var c := FeedFactor(feedPerRev, p.jogScale, dir);
      assert (ins[0].spindlePos - ins[0].spindlePos) * c == 0.0;
    }
  }

  // ---------------------------------------------------------------------

  class JogFeedController {
    var joyDeadband: real
    var joySpeedSlow: real
    var joySpeedFast: real
    var jogScale: real

    var lastMpg: int
    var internalAccumulator: real
    var lastSpindlePos: real
    var firstRun: bool
    var lastBtnState: bool
    var fastMode: bool

    var countsOut: int
    var velModeOut: bool
    var fastModeOut: bool

    function Parameters(): Params
      reads this
    {
      Params(joyDeadband, joySpeedSlow, joySpeedFast, jogScale)
    }

    function Snapshot(): State
      reads this
    {
      State(lastMpg, internalAccumulator, lastSpindlePos, firstRun, lastBtnState, fastMode,
            velModeOut, fastModeOut)
    }

    /** The defaults of rtapi_app_main; the remaining variables are not set
        there and start here at 0. */
    constructor ()
      ensures Parameters() == DefaultParams
      ensures firstRun && fastMode && internalAccumulator == 0.0
      ensures lastMpg == 0 && lastSpindlePos == 0.0 && !lastBtnState
      ensures countsOut == 0 && !velModeOut && !fastModeOut
    {
      joyDeadband := 0.05;
      joySpeedSlow := 100.0;
      joySpeedFast := 5000.0;
      jogScale := 0.0001;
      firstRun := true;
      internalAccumulator := 0.0;
      fastMode := true;
      lastMpg := 0;
      lastSpindlePos := 0.0;
      lastBtnState := false;
      countsOut := 0;
      velModeOut := false;
      fastModeOut := false;
    }

    /** halcmd setp on the parameters. */
    method SetParameters(p: Params)
      modifies this`joyDeadband, this`joySpeedSlow, this`joySpeedFast, this`jogScale
      ensures Parameters() == p
    {
      joyDeadband := p.joyDeadband;
      joySpeedSlow := p.joySpeedSlow;
      joySpeedFast := p.joySpeedFast;
      jogScale := p.jogScale;
    }

    /** toggleJogSpeed: a rising edge of the button flips the speed range. */
    method ToggleJogSpeed(btn: bool)
      modifies this`fastMode, this`lastBtnState, this`fastModeOut
      ensures fastMode == (if btn && !old(lastBtnState) then !old(fastMode) else old(fastMode))
      ensures lastBtnState == btn && fastModeOut == fastMode
    {
      if btn && !lastBtnState {
        fastMode := !fastMode;
      }
      lastBtnState := btn;
      fastModeOut := fastMode;
    }

    method GetJogAccumulatedValue(joyVal: real, mpgIn: int, mpgScale: real) returns (delta: real)
      modifies this`velModeOut, this`lastMpg
      ensures delta == JogDelta(joyVal, fastMode, Parameters(), mpgIn, old(lastMpg), mpgScale)
      ensures velModeOut == (joyVal != 0.0) && lastMpg == mpgIn
    {
      delta := 0.0;
      var currentMpg := mpgIn;
      if joyVal != 0.0 {
        velModeOut := true;
        var speed := if fastMode then joySpeedFast else joySpeedSlow;
        delta := joyVal * speed;
        lastMpg := currentMpg;
      } else {
        velModeOut := false;
        var mpgDiff := currentMpg - lastMpg;
        delta := mpgDiff as real * mpgScale;
        lastMpg := currentMpg;
      }
    }

    method GetFeedValue(inp: Inputs) returns (feed: real)
      modifies this`lastSpindlePos
      ensures feed == FeedValue(inp.spindlePos, old(lastSpindlePos), inp.feedPerRev, jogScale,
                                FeedDirection(inp.feedPositive, inp.feedNegative))
      ensures lastSpindlePos == (if jogScale < MinJogScale then old(lastSpindlePos) else inp.spindlePos)
    {
      if jogScale < MinJogScale {
        return 0.0;
      }
      var currentSpindlePos := inp.spindlePos;
      var spindleRev := currentSpindlePos - lastSpindlePos;
      lastSpindlePos := currentSpindlePos;
      var feedDir := FeedDirection(inp.feedPositive, inp.feedNegative);
      if feedDir != 0 {
        return spindleRev * inp.feedPerRev * (1.0 / jogScale) * feedDir as real;
      }
      return 0.0;
    }

    /** update(): one servo period. */
    method Update(inp: Inputs)
      modifies this`lastMpg, this`internalAccumulator, this`lastSpindlePos, this`firstRun,
        this`lastBtnState, this`fastMode, this`countsOut, this`velModeOut, this`fastModeOut
      ensures Snapshot() == Step(old(Snapshot()), Parameters(), inp)
      ensures countsOut == TruncToward0(internalAccumulator)
    {
      if firstRun {
        lastMpg := inp.mpgIn;
        lastSpindlePos := inp.spindlePos;
        internalAccumulator := 0.0;
        firstRun := false;
      }
      ToggleJogSpeed(inp.joyBtn);
      var joyVal := JoyValue(inp.joyIn, joyDeadband);
      var moveDelta := GetJogAccumulatedValue(joyVal, inp.mpgIn, inp.mpgScale);
      var feedData := GetFeedValue(inp);
      internalAccumulator := internalAccumulator + (moveDelta + feedData);
      countsOut := TruncToward0(internalAccumulator);
    }
  }
}
