/**
 * Whole training runs: the sequence of hook calls a training loop makes
 * (`on_batch_end` after each batch, `on_epoch_end` after each epoch) and the
 * properties that hold across all of them.
 */
module SgdrRun {
  import opened SgdrSchedule
  import opened SgdrRates

  /** One hook call made by the training loop. */
  datatype Event = Batch(logs: map<string, real>) | Epoch(index: int)

  /**
   * One hook call. A batch whose rate formula would divide by zero stops the
   * run with `ZeroDivision`; an epoch end fails as `EpochEnd` does.
   */
  function Step(c: Config, s: State, e: Event): (r: Result)
    ensures e.Batch? ==> (r.Ok? <==> RateDefined(c, s))
    ensures e.Batch? && r.Ok? ==> SameSchedule(s, r.state)
    ensures e.Epoch? ==> (r.Ok? <==> StartValid(c))
  {
    match e
    case Batch(logs) => if RateDefined(c, s) then Ok(BatchEnd(c, s, logs)) else Err(ZeroDivision)
    case Epoch(index) => EpochEnd(c, s, index)
  }

  /** The state after a sequence of hook calls, or the first fault. */
  function Run(c: Config, s: State, events: seq<Event>): Result
    decreases |events|
  {
    if events == [] then Ok(s)
    else
      match Step(c, s, events[0])
      case Err(e) => Err(e)
      case Ok(t) => Run(c, t, events[1..])
  }

  /** The hook call substitutes the new cooldown length and factor. */
  predicate Substitutes(c: Config, s: State, e: Event)
  {
    && e.Epoch? && StartValid(c) && Flips(s, e.index)
    && Toggle(s.warmupCycleMode) == Cooldown
    && s.flagswitch == c.numberOfCooldownsBeforeSwitch
  }

  /** The hook call applies the first drop to the rate ceiling. */
  predicate FirstDrops(c: Config, s: State, e: Event)
  {
    && e.Epoch? && StartValid(c)
    && var t := FlipCheck(c, s, e.index);
       PreRestarts(t, e.index) && t.cycleStepFlag + 1 == CheckMode(c)
  }

  /** How many hook calls of a run substitute the cooldown settings. */
  function Substitutions(c: Config, s: State, events: seq<Event>): nat
    decreases |events|
  {
    if events == [] then 0
    else
      match Step(c, s, events[0])
      case Err(_) => 0
      case Ok(t) => (if Substitutes(c, s, events[0]) then 1 else 0) + Substitutions(c, t, events[1..])
  }

  /** How many hook calls of a run apply the first drop. */
  function FirstDropCount(c: Config, s: State, events: seq<Event>): nat
    decreases |events|
  {
    if events == [] then 0
    else
      match Step(c, s, events[0])
      case Err(_) => 0
      case Ok(t) => (if FirstDrops(c, s, events[0]) then 1 else 0) + FirstDropCount(c, t, events[1..])
  }

  /**
   * Every state a run reaches keeps the mode invariant: exactly one mode is
   * active for a start flag of 0 or 1; for any other flag the mode stays that
   * flag, since no hook sets either mode.
   */
  lemma {:induction false} RunModeInvariant(c: Config, s: State, events: seq<Event>)
    requires ModeInvariant(c, s)
    ensures Run(c, s, events).Ok? ==> ModeInvariant(c, Run(c, s, events).state)
    decreases |events|
  {
    if events != [] {
      var r := Step(c, s, events[0]);
      if r.Ok? {
        RunModeInvariant(c, r.state, events[1..]);
      }
    }
  }

  /** With non-negative lengths and factors the next restart never moves back over a run. */
  lemma {:induction false} RunNextRestart(c: Config, s: State, events: seq<Event>)
    requires LengthsNonNegative(c, s)
    ensures Run(c, s, events).Ok? ==> Run(c, s, events).state.nextRestart >= s.nextRestart
    decreases |events|
  {
    if events != [] {
      var r := Step(c, s, events[0]);
      if r.Ok? {
        if events[0].Epoch? {
          EpochEndNextRestart(c, s, events[0].index);
        }
        RunNextRestart(c, r.state, events[1..]);
      }
    }
  }

  /** With multipliers in [0, 1] and a non-negative ceiling the rate ceiling never rises over a run. */
  lemma {:induction false} RunMaxLr(c: Config, s: State, events: seq<Event>)
    requires DecayBounded(c, s)
    ensures Run(c, s, events).Ok? ==> 0.0 <= Run(c, s, events).state.maxLr <= s.maxLr
    decreases |events|
  {
    if events != [] {
      var r := Step(c, s, events[0]);
      if r.Ok? {
        if events[0].Epoch? {
          EpochEndMaxLr(c, s, events[0].index);
        }
        RunMaxLr(c, r.state, events[1..]);
      }
    }
  }

  /**
   * The cooldown substitution fires at most once in a run, and not at all
   * once `flagswitch` has passed the switch count: it fires only when
   * `flagswitch` equals the count, and every flip into cooldown raises it.
   */
  lemma {:induction false} SubstitutionAtMostOnce(c: Config, s: State, events: seq<Event>)
    ensures Substitutions(c, s, events)
            <= if s.flagswitch <= c.numberOfCooldownsBeforeSwitch then 1 else 0
    decreases |events|
  {
    if events != [] {
      var r := Step(c, s, events[0]);
      if r.Ok? {
        SubstitutionAtMostOnce(c, r.state, events[1..]);
      }
    }
  }

  /**
   * The first drop happens at most once in a run, and not at all once the
   * pre-restart count has reached `check_mode`: the count only grows, by
   * one at a time, and the drop needs it to land exactly on `check_mode`.
   */
  lemma {:induction false} FirstDropAtMostOnce(c: Config, s: State, events: seq<Event>)
    requires StartValid(c)
    ensures FirstDropCount(c, s, events) <= if s.cycleStepFlag < CheckMode(c) then 1 else 0
    decreases |events|
  {
    if events != [] {
      var r := Step(c, s, events[0]);
      if r.Ok? {
        FirstDropAtMostOnce(c, r.state, events[1..]);
      }
    }
  }

  /** Batches alone never change the mode, the restart epoch or the rate ceiling. */
  lemma {:induction false} BatchesKeepSchedule(c: Config, s: State, events: seq<Event>)
    requires forall i :: 0 <= i < |events| ==> events[i].Batch?
    ensures Run(c, s, events).Ok? ==> SameSchedule(s, Run(c, s, events).state)
    decreases |events|
  {
    if events != [] {
      var r := Step(c, s, events[0]);
      if r.Ok? {
        BatchesKeepSchedule(c, r.state, events[1..]);
      }
    }
  }

  /** `n` batches with nothing logged. */
  function Batches(n: nat): seq<Event>
  {
    seq(n, _ => Batch(map[]))
  }

  /**
   * `n` batches in warmup advance the warmup counter by `n` and keep the
   * schedule; the last of them writes the ramp's value at the counter it
   * found, one below the final count.
   */
  lemma {:induction false} WarmupBatches(c: Config, s: State, n: nat)
    requires s.warmupCycleMode == Warmup && RateDefined(c, s)
    ensures Run(c, s, Batches(n)).Ok?
    ensures var t := Run(c, s, Batches(n)).state;
            && SameSchedule(s, t)
            && t.batchSinceWarmup == s.batchSinceWarmup + n
            && t.batchSinceRestart == s.batchSinceRestart
            && (n > 0 ==> t.lr == WarmupRate(c.minLr, t.maxLr, c.stepsPerEpoch, t.warmupLength,
                                             t.batchSinceWarmup - 1))
    decreases n
  {
    if n == 0 {
      assert Batches(n) == [];
    } else {
      var next := BatchEnd(c, s, map[]);
      BatchesUnfold(c, s, n);
      WarmupBatches(c, next, n - 1);
      if n == 1 {
        assert Batches(0) == [];
        assert Run(c, next, Batches(0)) == Ok(next);
        assert next.batchSinceWarmup - 1 == s.batchSinceWarmup;
        assert next.maxLr == s.maxLr && next.warmupLength == s.warmupLength;
      }
    }
  }

  /** The first of `n` batches is one `BatchEnd`; the run goes on from its state. */
  lemma BatchesUnfold(c: Config, s: State, n: nat)
    requires n > 0 && RateDefined(c, s)
    ensures Run(c, s, Batches(n)) == Run(c, BatchEnd(c, s, map[]), Batches(n - 1))
  {
    var events := Batches(n);
    assert events[0] == Batch(map[]) && events[1..] == Batches(n - 1);
  }

  /**
   * A warmup start: rates from 0.001 to 0.1 over 100 batches per epoch, two
   * warmup epochs, then three cooldown epochs, growth factors 1, first drop
   * 0.5, general decay 0.9, one cooldown before the switch to length 4.
   */
  function ScenarioConfig(cos: real -> real): Config
  {
    Config(0.001, 100, 0.5, 0.9, Warmup, 1, 1, 4.0, 1.0, cos)
  }

  function ScenarioStart(cos: real -> real): State
  {
    Init(ScenarioConfig(cos), 0.1, 3.0, 1.0, 2.0, 1.0, 0.0)
  }

  /**
   * The first epoch's batches. The ramp's value at 100 of its 200 batches
   * would be 0.0505, but no batch writes it: the rate is computed before the
   * counter advances, so the 100th batch writes 0.050005.
   */
  lemma ScenarioFirstBatches(cos: real -> real)
    ensures var c, s := ScenarioConfig(cos), ScenarioStart(cos);
            && s.nextRestart == 2.0
            && Run(c, s, Batches(c.stepsPerEpoch)).Ok?
            && var s1 := Run(c, s, Batches(c.stepsPerEpoch)).state;
               && s1.lr == 0.050005 && s1.batchSinceWarmup == 100
               && s1.warmupCycleMode == Warmup && s1.maxLr == 0.1 && s1.cycleStepFlag == 0
               && s1.warmupLength == 2.0 && s1.nextRestart == 2.0
               && s1.initCooldownLength == 3.0 && s1.initCooldownMultFactor == 1.0 && s1.flagswitch == 0
  {
    var c, s := ScenarioConfig(cos), ScenarioStart(cos);
    assert s.maxLr == 0.1 && s.warmupLength == 2.0 && s.batchSinceWarmup == 0;
    assert s.warmupCycleMode == Warmup && RateDefined(c, s);
    WarmupBatches(c, s, c.stepsPerEpoch);
    var s1 := Run(c, s, Batches(c.stepsPerEpoch)).state;
    assert s1.lr == WarmupRate(0.001, 0.1, 100, 2.0, 99);
    assert WarmupRate(0.001, 0.1, 100, 2.0, 99) == 0.050005 by {
      assert Ramp(0.001, 0.1, 99.0 / 200.0) == 0.050005;
    }
  }

  /**
   * The end of the first epoch. The pre-restart check compares against
   * `next_restart - 1`, so it already fires at the end of epoch index 0 and
   * applies the general decay while still in warmup: `max_lr` becomes 0.09
   * and the 101st batch writes 0.0455.
   */
  lemma ScenarioEarlyDecay(c: Config, s1: State)
    requires c == ScenarioConfig(c.cos)
    requires s1.warmupCycleMode == Warmup && s1.maxLr == 0.1 && s1.cycleStepFlag == 0
    requires s1.batchSinceWarmup == 100 && s1.warmupLength == 2.0 && s1.nextRestart == 2.0
    requires s1.initCooldownLength == 3.0 && s1.initCooldownMultFactor == 1.0 && s1.flagswitch == 0
    ensures EpochEnd(c, s1, 0).Ok?
    ensures var t := EpochEnd(c, s1, 0).state;
            && t.warmupCycleMode == Warmup && t.maxLr == 0.09 && t.cycleStepFlag == 1
            && t.batchSinceWarmup == 100 && t.warmupLength == 2.0 && t.nextRestart == 2.0
            && t.initCooldownLength == 3.0 && t.initCooldownMultFactor == 1.0 && t.flagswitch == 0
            && RateDefined(c, t) && BatchEnd(c, t, map[]).lr == 0.0455
  {
    var t := EpochEnd(c, s1, 0).state;
    assert t.maxLr == 0.1 * 0.9;
    assert BatchEnd(c, t, map[]).lr == WarmupRate(0.001, 0.09, 100, 2.0, 100);
  }

  /**
   * The second epoch of the scenario: its last batch writes 0.089555, and
   * the flip at the end of epoch index 1 enters cooldown and moves the
   * restart to 2 + 3 = 5.
   */
  lemma ScenarioSecondEpoch(c: Config, t: State)
    requires c == ScenarioConfig(c.cos)
    requires t.warmupCycleMode == Warmup && t.maxLr == 0.09 && t.batchSinceWarmup == 100
    requires t.warmupLength == 2.0 && t.nextRestart == 2.0
    requires t.initCooldownLength == 3.0 && t.initCooldownMultFactor == 1.0 && t.flagswitch == 0
    ensures Run(c, t, Batches(c.stepsPerEpoch)).Ok?
    ensures var t1 := Run(c, t, Batches(c.stepsPerEpoch)).state;
            && t1.lr == 0.089555
            && EpochEnd(c, t1, 1).Ok?
            && var u := EpochEnd(c, t1, 1).state;
               && u.warmupCycleMode == Cooldown && u.nextRestart == 5.0
               && u.initCooldownLength == 3.0 && u.flagswitch == 1 && u.maxLr == 0.09
  {
    WarmupBatches(c, t, c.stepsPerEpoch);
    var t1 := Run(c, t, Batches(c.stepsPerEpoch)).state;
    assert t1.lr == WarmupRate(0.001, 0.09, 100, 2.0, 199);
    assert Grown(3.0, 1.0) == 3.0;
    assert EpochEnd(c, t1, 1).state.nextRestart == 5.0;
  }

  /** The two epochs of the scenario, run one after the other through the hooks. */
  lemma ScenarioWarmupStart(cos: real -> real)
    ensures var c, s := ScenarioConfig(cos), ScenarioStart(cos);
            && Run(c, s, Batches(c.stepsPerEpoch)).Ok?
            && var s1 := Run(c, s, Batches(c.stepsPerEpoch)).state;
               && s1.lr == 0.050005
               && EpochEnd(c, s1, 0).Ok?
               && var t := EpochEnd(c, s1, 0).state;
                  && t.maxLr == 0.09
                  && RateDefined(c, t) && BatchEnd(c, t, map[]).lr == 0.0455
                  && Run(c, t, Batches(c.stepsPerEpoch)).Ok?
                  && var t1 := Run(c, t, Batches(c.stepsPerEpoch)).state;
                     && t1.lr == 0.089555
                     && EpochEnd(c, t1, 1).Ok?
                     && EpochEnd(c, t1, 1).state.warmupCycleMode == Cooldown
                     && EpochEnd(c, t1, 1).state.nextRestart == 5.0
  {
    var c, s := ScenarioConfig(cos), ScenarioStart(cos);
    ScenarioFirstBatches(cos);
    var s1 := Run(c, s, Batches(c.stepsPerEpoch)).state;
    ScenarioEarlyDecay(c, s1);
    ScenarioSecondEpoch(c, EpochEnd(c, s1, 0).state);
  }
}
