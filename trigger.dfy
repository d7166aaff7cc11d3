/**
 * The physical triggers of 01.DEV/main.py: the trigger-mode check of
 * `setup_gpio`, the rotary-encoder polling loop and the push-button polling
 * loop. Pin readings and clock readings are inputs; playing the overlay is
 * reported as an output ("fired").
 */
module Trigger {
  import opened Wrappers
  import Config

  // ---------------------------------------------------------------------------
  // Trigger mode (setup_gpio)
  // ---------------------------------------------------------------------------

  datatype TriggerMode = Button | Encoder

  /**
   * The mode check of `setup_gpio`: "button" and "encoder" are accepted, any
   * other value raises ValueError("Mode inconnu: <mode>") before any loop starts.
   */
  function SetupGpio(mode: string): (r: Result<TriggerMode>)
    ensures r.Ok? <==> mode == "button" || mode == "encoder"
    ensures r == Ok(Button) <==> mode == "button"
    ensures r == Ok(Encoder) <==> mode == "encoder"
    ensures r.Err? ==> r.message == "Mode inconnu: " + mode
  {
    if mode == "button" then Ok(Button)
    else if mode == "encoder" then Ok(Encoder)
    else Err("Mode inconnu: " + mode)
  }

  /** The configured mode is a valid one: it selects the button loop. */
  lemma ConfiguredModeIsButton()
    ensures SetupGpio(Config.Mode) == Ok(Button)
  {
  }

  // ---------------------------------------------------------------------------
  // Rotary encoder (encoder_mode_loop)
  // ---------------------------------------------------------------------------

  /** A digital pin level as read by GPIO.input. */
  datatype Level = Low | High

  /** The two constants the encoder loop reads from the settings. */
  datatype EncoderConfig = EncoderConfig(threshold: int, resetTimeout: int)

  /** The constants of the settings file. */
  const Settings: EncoderConfig := EncoderConfig(Config.EncoderThreshold, Config.EncoderResetTimeout)

  /** A threshold of at least one tick and a non-negative inactivity timeout. */
  predicate ValidConfig(cfg: EncoderConfig) {
    cfg.threshold >= 1 && cfg.resetTimeout >= 0
  }

  /** The three locals the loop keeps between iterations. */
  datatype EncoderState = EncoderState(encoderCount: int, lastClk: Level, lastRotationTime: int)

  /**
   * What one iteration reads: the CLK and DT levels, the clock `now` (read on
   * lines 118 and 135) and the clock reading taken after a fired overlay has
   * finished playing (line 130; unused when nothing fires).
   */
  datatype Sample = Sample(clk: Level, dt: Level, now: int, overlayEnd: int)

  /** The state after one iteration and whether it played the overlay. */
  datatype StepResult = StepResult(state: EncoderState, fired: bool)

  /** State before the first iteration: count 0, the first CLK reading, the start time. */
  function EncoderStart(clk: Level, now: int): (s: EncoderState)
    ensures s.encoderCount == 0 && s.lastClk == clk && s.lastRotationTime == now
  {
    EncoderState(0, clk, now)
  }

  /** The counter lies in 0 .. threshold - 1. */
  predicate CountInRange(cfg: EncoderConfig, s: EncoderState) {
    0 <= s.encoderCount < cfg.threshold
  }

  /** The inactivity rule: a non-zero count is cleared once the last rotation is older than the timeout. */
  function InactivityReset(cfg: EncoderConfig, s: EncoderState, now: int): (r: EncoderState)
    ensures r.lastClk == s.lastClk && r.lastRotationTime == s.lastRotationTime
    ensures r.encoderCount == 0 || r.encoderCount == s.encoderCount
    ensures r.encoderCount != s.encoderCount <==>
      now - s.lastRotationTime > cfg.resetTimeout && s.encoderCount != 0
  {
    if now - s.lastRotationTime > cfg.resetTimeout && s.encoderCount != 0 then
      s.(encoderCount := 0)
    else
      s
  }

  /**
   * One iteration of the encoder loop. A change of CLK is a tick: it stamps the
   * rotation time, counts only when DT differs from CLK (reverse ticks are not
   * counted), fires the overlay once the count reaches the threshold (then
   * clears the count and stamps the time again) and records the new CLK. The
   * inactivity rule is applied afterwards in every iteration.
   */
  function EncoderNext(cfg: EncoderConfig, s: EncoderState, sample: Sample): (r: StepResult)
    ensures ValidConfig(cfg) && CountInRange(cfg, s) ==> CountInRange(cfg, r.state)
    ensures r.fired ==> sample.clk != s.lastClk && r.state.encoderCount == 0
    ensures r.state.encoderCount != 0 ==> sample.now - r.state.lastRotationTime <= cfg.resetTimeout
  {
    var ticked :=
      if sample.clk != s.lastClk then
        var count := if sample.dt != sample.clk then s.encoderCount + 1 else s.encoderCount;
        if count >= cfg.threshold then
          StepResult(EncoderState(0, sample.clk, sample.overlayEnd), true)
        else
          StepResult(EncoderState(count, sample.clk, sample.now), false)
      else
        StepResult(s, false);
    StepResult(InactivityReset(cfg, ticked.state, sample.now), ticked.fired)
  }

  /**
   * A forward tick (CLK changes, DT differs from CLK) adds exactly one to the
   * count, or fires when that reaches the threshold; either way CLK is recorded
   * and the rotation time is stamped.
   */
  lemma ForwardTickCounts(cfg: EncoderConfig, s: EncoderState, sample: Sample)
    requires ValidConfig(cfg) && CountInRange(cfg, s)
    requires sample.clk != s.lastClk && sample.dt != sample.clk
    ensures var r := EncoderNext(cfg, s, sample);
      r.state.lastClk == sample.clk &&
      (r.fired <==> s.encoderCount + 1 == cfg.threshold) &&
      (r.fired ==> r.state == EncoderState(0, sample.clk, sample.overlayEnd)) &&
      (!r.fired ==> r.state == EncoderState(s.encoderCount + 1, sample.clk, sample.now))
  {
  }

  /** A reverse tick (CLK changes, DT equals CLK) leaves the count alone but still stamps the time. */
  lemma ReverseTickIgnored(cfg: EncoderConfig, s: EncoderState, sample: Sample)
    requires ValidConfig(cfg) && CountInRange(cfg, s)
    requires sample.clk != s.lastClk && sample.dt == sample.clk
    ensures EncoderNext(cfg, s, sample) ==
      StepResult(EncoderState(s.encoderCount, sample.clk, sample.now), false)
  {
  }

  /**
   * Without a change of CLK nothing fires, CLK and the rotation time are kept,
   * and only the inactivity rule can touch the count: it drops to 0 exactly
   * when it was non-zero and the last rotation is strictly older than the timeout.
   */
  lemma IdleStepOnlyResets(cfg: EncoderConfig, s: EncoderState, sample: Sample)
    requires sample.clk == s.lastClk
    ensures var r := EncoderNext(cfg, s, sample);
      !r.fired && r.state.lastClk == s.lastClk &&
      r.state.lastRotationTime == s.lastRotationTime &&
      (r.state.encoderCount == 0 || r.state.encoderCount == s.encoderCount) &&
      (r.state.encoderCount != s.encoderCount <==>
         s.encoderCount != 0 && sample.now - s.lastRotationTime > cfg.resetTimeout)
  {
  }

  /** The overlay fires exactly when a forward tick brings the count to the threshold. */
  lemma FiresExactlyAtThreshold(cfg: EncoderConfig, s: EncoderState, sample: Sample)
    requires ValidConfig(cfg) && CountInRange(cfg, s)
    ensures EncoderNext(cfg, s, sample).fired <==>
      sample.clk != s.lastClk && sample.dt != sample.clk && s.encoderCount + 1 == cfg.threshold
  {
  }

  /** The result of polling a sequence of samples: the final state and the overlays played. */
  datatype RunResult = RunResult(state: EncoderState, overlays: nat)

  /** The loop run over `samples` in order, starting from `s`. */
  function Run(cfg: EncoderConfig, s: EncoderState, samples: seq<Sample>): RunResult
    decreases |samples|
  {
    if samples == [] then RunResult(s, 0)
    else
      var prev := Run(cfg, s, samples[..|samples| - 1]);
      var r := EncoderNext(cfg, prev.state, samples[|samples| - 1]);
      RunResult(r.state, prev.overlays + if r.fired then 1 else 0)
  }

  /** With a threshold of at least one, the counter stays in 0 .. threshold - 1 whatever is polled. */
  lemma {:induction false} RunStaysInRange(cfg: EncoderConfig, s: EncoderState, samples: seq<Sample>)
    requires ValidConfig(cfg) && CountInRange(cfg, s)
    ensures CountInRange(cfg, Run(cfg, s, samples).state)
    decreases |samples|
  {
    if samples != [] {
      RunStaysInRange(cfg, s, samples[..|samples| - 1]);
    }
  }

  /**
   * After any non-empty stretch of polls, a non-zero count means the last
   * rotation lies within the timeout of the last poll's clock reading.
   */
  lemma RunKeepsPendingCountFresh(cfg: EncoderConfig, s: EncoderState, samples: seq<Sample>)
    requires samples != []
    ensures var r := Run(cfg, s, samples);
      r.state.encoderCount != 0 ==> samples[|samples| - 1].now - r.state.lastRotationTime <= cfg.resetTimeout
  {
    var prev := Run(cfg, s, samples[..|samples| - 1]);
    var r := EncoderNext(cfg, prev.state, samples[|samples| - 1]);
    assert Run(cfg, s, samples).state == r.state;
  }

  /**
   * Every overlay costs `threshold` samples: each iteration adds at most one
   * to the count, and firing takes `threshold` from it.
   */
  lemma {:induction false} OverlaysNeedThresholdSamples(cfg: EncoderConfig, s: EncoderState, samples: seq<Sample>)
    requires ValidConfig(cfg) && CountInRange(cfg, s)
    ensures var r := Run(cfg, s, samples);
      r.overlays * cfg.threshold + r.state.encoderCount <= s.encoderCount + |samples|
    decreases |samples|
  {
    if samples != [] {
      var init := samples[..|samples| - 1];
      OverlaysNeedThresholdSamples(cfg, s, init);
      RunStaysInRange(cfg, s, init);
      var prev := Run(cfg, s, init);
      var r := EncoderNext(cfg, prev.state, samples[|samples| - 1]);
      if r.fired {
        assert (prev.overlays + 1) * cfg.threshold == prev.overlays * cfg.threshold + cfg.threshold;
      }
    }
  }

  /** CLK level recorded after polling `samples`: the last sample's, or the starting one. */
  function LastClk(s: EncoderState, samples: seq<Sample>): Level {
    if samples == [] then s.lastClk else samples[|samples| - 1].clk
  }

  /** Time of the last CLK change in `samples`, or the starting rotation time when there is none. */
  function LastChange(s: EncoderState, samples: seq<Sample>): int
    decreases |samples|
  {
    if samples == [] then s.lastRotationTime
    else
      var init := samples[..|samples| - 1];
      var x := samples[|samples| - 1];
      if x.clk != LastClk(s, init) then x.now else LastChange(s, init)
  }

  /** A sample that changes CLK away from `prevClk` with DT different from the new CLK. */
  predicate IsForwardTick(prevClk: Level, x: Sample) {
    x.clk != prevClk && x.dt != x.clk
  }

  /** The number of forward ticks in `samples`. */
  function ForwardTicks(s: EncoderState, samples: seq<Sample>): nat
    decreases |samples|
  {
    if samples == [] then 0
    else
      var init := samples[..|samples| - 1];
      ForwardTicks(s, init) + if IsForwardTick(LastClk(s, init), samples[|samples| - 1]) then 1 else 0
  }

  /**
   * Steady turning: while a count is pending, every poll without a CLK change
   * comes within the inactivity timeout of the last CLK change. Idle polls and
   * reverse ticks are allowed anywhere; only forward ticks count.
   */
  predicate SteadyTurning(cfg: EncoderConfig, s: EncoderState, samples: seq<Sample>)
    decreases |samples|
  {
    samples == [] ||
    var init := samples[..|samples| - 1];
    var x := samples[|samples| - 1];
    SteadyTurning(cfg, s, init) &&
    (x.clk == LastClk(s, init) && s.encoderCount + ForwardTicks(s, init) != 0 ==>
       x.now - LastChange(s, init) <= cfg.resetTimeout)
  }

  /**
   * Steady turning that stays short of the threshold fires nothing: the count
   * grows by one per forward tick, CLK is the last one polled and the rotation
   * time is that of the last CLK change.
   */
  lemma {:induction false} SteadyTurningCounts(cfg: EncoderConfig, s: EncoderState, samples: seq<Sample>)
    requires ValidConfig(cfg) && s.encoderCount >= 0
    requires SteadyTurning(cfg, s, samples)
    requires s.encoderCount + ForwardTicks(s, samples) < cfg.threshold
    ensures Run(cfg, s, samples) ==
      RunResult(EncoderState(s.encoderCount + ForwardTicks(s, samples), LastClk(s, samples), LastChange(s, samples)), 0)
    decreases |samples|
  {
    if samples != [] {
      var n := |samples| - 1;
      var init := samples[..n];
      SteadyTurningCounts(cfg, s, init);
      var prev := Run(cfg, s, init);
      var x := samples[n];
      if x.clk == prev.state.lastClk {
        IdleStepOnlyResets(cfg, prev.state, x);
      } else if x.dt != x.clk {
        ForwardTickCounts(cfg, prev.state, x);
      } else {
        ReverseTickIgnored(cfg, prev.state, x);
      }
    }
  }

  /**
   * Starting from count c, steady turning whose last sample is the
   * (threshold - c)-th forward tick fires the overlay exactly once, at that
   * tick, and leaves the count at 0 with the post-overlay time.
   */
  lemma SteadyTurningFiresOnce(cfg: EncoderConfig, s: EncoderState, samples: seq<Sample>)
    requires ValidConfig(cfg) && CountInRange(cfg, s)
    requires SteadyTurning(cfg, s, samples) && samples != []
    requires IsForwardTick(LastClk(s, samples[..|samples| - 1]), samples[|samples| - 1])
    requires s.encoderCount + ForwardTicks(s, samples) == cfg.threshold
    ensures Run(cfg, s, samples) ==
      RunResult(EncoderState(0, samples[|samples| - 1].clk, samples[|samples| - 1].overlayEnd), 1)
  {
    var n := |samples| - 1;
    var init := samples[..n];
    SteadyTurningCounts(cfg, s, init);
    var prev := Run(cfg, s, init);
    ForwardTickCounts(cfg, prev.state, samples[n]);
  }

  /**
   * A count built up by steady turning is cleared by the first idle poll that
   * comes more than the timeout after the last CLK change; nothing fires.
   */
  lemma StaleCountCleared(cfg: EncoderConfig, s: EncoderState, samples: seq<Sample>, x: Sample)
    requires ValidConfig(cfg) && s.encoderCount >= 0
    requires SteadyTurning(cfg, s, samples)
    requires 0 < s.encoderCount + ForwardTicks(s, samples) < cfg.threshold
    requires x.clk == LastClk(s, samples) && x.now - LastChange(s, samples) > cfg.resetTimeout
    ensures Run(cfg, s, samples + [x]) ==
      RunResult(EncoderState(0, LastClk(s, samples), LastChange(s, samples)), 0)
  {
    SteadyTurningCounts(cfg, s, samples);
    assert (samples + [x])[..|samples|] == samples;
  }

  /** Settings with a threshold of 3 ticks and a 3-second timeout. */
  const SmallConfig: EncoderConfig := EncoderConfig(3, 3)

  /** Forward ticks at t = 0, 1, 2 (after a start at t = 0 with CLK low) fire once at t = 2. */
  lemma ThreeQuickTicksFire()
    ensures Run(SmallConfig, EncoderStart(Low, 0),
              [Sample(High, Low, 0, 0), Sample(Low, High, 1, 1), Sample(High, Low, 2, 8)])
            == RunResult(EncoderState(0, High, 8), 1)
  {
    var samples := [Sample(High, Low, 0, 0), Sample(Low, High, 1, 1), Sample(High, Low, 2, 8)];
    var start := EncoderStart(Low, 0);
    assert samples[..0] == [] && samples[..1][..0] == [] && samples[..2][..1] == samples[..1];
    assert Run(SmallConfig, start, samples[..1]) == RunResult(EncoderState(1, High, 0), 0);
    assert Run(SmallConfig, start, samples[..2]) == RunResult(EncoderState(2, Low, 1), 0);
    assert samples[..3] == samples;
  }

  /**
   * Forward ticks at t = 0, 2 and 4 with idle polls at t = 1 and 3 in between,
   * as the 1 ms polling produces them, fire once at t = 4.
   */
  lemma TicksBetweenIdlePollsFire()
    ensures Run(SmallConfig, EncoderStart(Low, 0),
              [Sample(High, Low, 0, 0), Sample(High, Low, 1, 1), Sample(Low, High, 2, 2),
               Sample(Low, High, 3, 3), Sample(High, Low, 4, 9)])
            == RunResult(EncoderState(0, High, 9), 1)
  {
    var samples := [Sample(High, Low, 0, 0), Sample(High, Low, 1, 1), Sample(Low, High, 2, 2),
                    Sample(Low, High, 3, 3), Sample(High, Low, 4, 9)];
    var start := EncoderStart(Low, 0);
    assert samples[..4][..3] == samples[..3] && samples[..3][..2] == samples[..2];
    assert samples[..2][..1] == samples[..1] && samples[..1][..0] == [];
    assert ForwardTicks(start, samples[..1]) == 1 && LastChange(start, samples[..1]) == 0;
    assert SteadyTurning(SmallConfig, start, samples[..1]);
    assert ForwardTicks(start, samples[..2]) == 1 && LastChange(start, samples[..2]) == 0;
    assert SteadyTurning(SmallConfig, start, samples[..2]);
    assert ForwardTicks(start, samples[..3]) == 2 && LastChange(start, samples[..3]) == 2;
    assert SteadyTurning(SmallConfig, start, samples[..3]);
    assert ForwardTicks(start, samples[..4]) == 2 && SteadyTurning(SmallConfig, start, samples[..4]);
    assert samples[..5] == samples;
    SteadyTurningFiresOnce(SmallConfig, start, samples);
  }

  /**
   * Forward ticks at t = 0 and 1, an idle poll at t = 5 (more than 3 s after the
   * last tick) clears the count, and a tick at t = 6 leaves it at 1: nothing fires.
   */
  lemma StaleCountIsCleared()
    ensures Run(SmallConfig, EncoderStart(Low, 0),
              [Sample(High, Low, 0, 0), Sample(Low, High, 1, 1),
               Sample(Low, High, 5, 5), Sample(High, Low, 6, 6)])
            == RunResult(EncoderState(1, High, 6), 0)
  {
    var samples := [Sample(High, Low, 0, 0), Sample(Low, High, 1, 1),
                    Sample(Low, High, 5, 5), Sample(High, Low, 6, 6)];
    var start := EncoderStart(Low, 0);
    assert samples[..0] == [] && samples[..1][..0] == [] && samples[..2][..1] == samples[..1];
    assert samples[..3][..2] == samples[..2];
    assert Run(SmallConfig, start, samples[..1]) == RunResult(EncoderState(1, High, 0), 0);
    assert Run(SmallConfig, start, samples[..2]) == RunResult(EncoderState(2, Low, 1), 0);
    assert Run(SmallConfig, start, samples[..3]) == RunResult(EncoderState(0, Low, 1), 0);
    assert samples[..4] == samples;
  }

  /** The loop's three locals, updated in place by one iteration at a time. */
  class EncoderLoop {
    var encoderCount: int
    var lastClk: Level
    var lastRotationTime: int

    function State(): EncoderState
      reads this
    {
      EncoderState(encoderCount, lastClk, lastRotationTime)
    }

    /** Lines 109-111: count 0, the first CLK reading, the start time. */
    constructor (clk: Level, now: int)
      ensures State() == EncoderStart(clk, now)
    {
      encoderCount := 0;
      lastClk := clk;
      lastRotationTime := now;
    }

    /** One pass through the loop body, with the settings' threshold and timeout. */
    method Step(clk: Level, dt: Level, now: int, overlayEnd: int) returns (fired: bool)
      modifies this
      ensures StepResult(State(), fired) == EncoderNext(Settings, old(State()), Sample(clk, dt, now, overlayEnd))
    {
      fired := false;
      if clk != lastClk {
        lastRotationTime := now;
        if dt != clk {
          encoderCount := encoderCount + 1;
        }
        if encoderCount >= Config.EncoderThreshold {
          fired := true;
          encoderCount := 0;
          lastRotationTime := overlayEnd;
        }
        lastClk := clk;
      }
      if now - lastRotationTime > Config.EncoderResetTimeout && encoderCount != 0 {
        encoderCount := 0;
      }
    }
  }

  /**
   * The encoder loop over a finite stretch of polled samples: returns the
   * number of overlays played and the final locals. The counter stays below
   * the threshold and each overlay took at least `threshold` samples.
   */
  method EncoderModeLoop(initialClk: Level, startTime: int, samples: seq<Sample>)
    returns (overlays: nat, final: EncoderState)
    ensures RunResult(final, overlays) == Run(Settings, EncoderStart(initialClk, startTime), samples)
    ensures 0 <= final.encoderCount < Config.EncoderThreshold
    ensures overlays * Config.EncoderThreshold <= |samples|
  {
    var encoder := new EncoderLoop(initialClk, startTime);
    overlays := 0;
    var i := 0;
    while i < |samples|
      invariant 0 <= i <= |samples|
      invariant RunResult(encoder.State(), overlays) == Run(Settings, EncoderStart(initialClk, startTime), samples[..i])
    {
      var sample := samples[i];
      assert samples[..i + 1][..i] == samples[..i];
      var fired := encoder.Step(sample.clk, sample.dt, sample.now, sample.overlayEnd);
      if fired {
        overlays := overlays + 1;
      }
      i := i + 1;
    }
    assert samples[..i] == samples;
    final := encoder.State();
    RunStaysInRange(Settings, EncoderStart(initialClk, startTime), samples);
    OverlaysNeedThresholdSamples(Settings, EncoderStart(initialClk, startTime), samples);
  }

  // ---------------------------------------------------------------------------
  // Push button (button_mode_loop)
  // ---------------------------------------------------------------------------

  /**
   * The button loop over a finite stretch of polled levels: every poll that
   * reads HIGH plays the overlay once, so the overlays played are the number
   * of HIGH readings.
   */
  method ButtonModeLoop(levels: seq<Level>) returns (overlays: nat)
    ensures overlays == multiset(levels)[High]
  {
    overlays := 0;
    var i := 0;
    while i < |levels|
      invariant 0 <= i <= |levels|
      invariant overlays == multiset(levels[..i])[High]
    {
      assert levels[..i + 1] == levels[..i] + [levels[i]];
      if levels[i] == High {
        overlays := overlays + 1;
      }
      i := i + 1;
    }
    assert levels[..i] == levels;
  }
}
