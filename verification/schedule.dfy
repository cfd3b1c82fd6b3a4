/**
 * The restart state machine of the SGDR callback, as values: the settings
 * fixed at construction (`Config`), the attributes the two hooks update
 * (`State`), and one function per hook. The class in SgdrCallback is proved
 * to change its fields exactly as these functions say.
 */
module SgdrSchedule {
  import opened SgdrRates
  import opened SgdrHistory

  /** `warmup_cycle_mode` values: warmup = 0, cooldown = 1. */
  const Warmup: int := 0
  const Cooldown: int := 1

  /** The settings the callback never changes after construction. */
  datatype Config = Config(
    minLr: real,
    stepsPerEpoch: int,
    firstLrDropMult: real,
    generalLrDecay: real,
    ifWarmupCooldownStart: int,
    ifNoPostWarmup: int,
    numberOfCooldownsBeforeSwitch: int,
    newCooldownLength: real,
    newCooldownMultFactor: real,
    cos: real -> real)

  /** The attributes the hooks update, and the optimizer's rate slot `lr`. */
  datatype State = State(
    maxLr: real,
    warmupCycleMode: int,
    batchSinceRestart: nat,
    batchSinceWarmup: nat,
    nextRestart: real,
    warmupLength: real,
    warmupMultFactor: real,
    initCooldownLength: real,
    initCooldownMultFactor: real,
    cycleStepFlag: nat,
    flagswitch: nat,
    lr: real,
    history: History)

  /**
   * The faults a hook can raise. `NextRestartUnset`: with a start flag other
   * than 0 or 1 the constructor never assigns `next_restart`, so reading it
   * in `on_epoch_end` fails. `ZeroDivision`: a rate formula divided by zero.
   */
  datatype Error = NextRestartUnset | ZeroDivision

  datatype Result = Ok(state: State) | Err(error: Error)

  /** The start flag is one the constructor acts on. */
  predicate StartValid(c: Config)
  {
    c.ifWarmupCooldownStart == Warmup || c.ifWarmupCooldownStart == Cooldown
  }

  /**
   * Exactly one of the two modes is active once the start flag is valid;
   * otherwise the mode keeps the unrecognised start flag, which no hook acts on.
   */
  predicate ModeInvariant(c: Config, s: State)
  {
    if StartValid(c) then s.warmupCycleMode == Warmup || s.warmupCycleMode == Cooldown
    else s.warmupCycleMode == c.ifWarmupCooldownStart
  }

  /** Python's `not` on the mode flag: 0 becomes 1, anything else 0. */
  function Toggle(mode: int): (m: int)
    ensures m != mode
    ensures m == Warmup || m == Cooldown
    ensures mode == Warmup <==> m == Cooldown
  {
    if mode == 0 then 1 else 0
  }

  /**
   * The constructor. The optimizer's rate slot belongs to the caller; `lr`
   * is its value when the callback is created.
   */
  function Init(c: Config, maxLr: real, initCooldownLength: real, initCooldownMultFactor: real,
                warmupLength: real, warmupMultFactor: real, lr: real): (s: State)
    ensures s.batchSinceRestart == 0 && s.batchSinceWarmup == 0
    ensures s.cycleStepFlag == 0 && s.flagswitch == 0
    ensures s.warmupCycleMode == c.ifWarmupCooldownStart && ModeInvariant(c, s)
    ensures c.ifWarmupCooldownStart == Warmup ==> s.nextRestart == warmupLength
    ensures c.ifWarmupCooldownStart == Cooldown ==> s.nextRestart == initCooldownLength
    ensures s.maxLr == maxLr && s.lr == lr && s.history == map[]
    ensures s.warmupLength == warmupLength && s.warmupMultFactor == warmupMultFactor
    ensures s.initCooldownLength == initCooldownLength && s.initCooldownMultFactor == initCooldownMultFactor
  {
    State(
      maxLr := maxLr,
      warmupCycleMode := c.ifWarmupCooldownStart,
      batchSinceRestart := 0,
      batchSinceWarmup := 0,
      // With an unrecognised start flag `next_restart` stays unassigned; this
      // placeholder is never read, since EpochEnd then fails before reading it.
      nextRestart := if c.ifWarmupCooldownStart == Warmup then warmupLength
                     else if c.ifWarmupCooldownStart == Cooldown then initCooldownLength
                     else 0.0,
      warmupLength := warmupLength,
      warmupMultFactor := warmupMultFactor,
      initCooldownLength := initCooldownLength,
      initCooldownMultFactor := initCooldownMultFactor,
      cycleStepFlag := 0,
      flagswitch := 0,
      lr := lr,
      history := map[])
  }

  /** The rate formula of the current mode does not divide by zero. */
  predicate RateDefined(c: Config, s: State)
  {
    && (s.warmupCycleMode == Warmup ==> c.stepsPerEpoch as real * s.warmupLength != 0.0)
    && (s.warmupCycleMode == Cooldown ==> c.stepsPerEpoch as real * s.initCooldownLength != 0.0)
  }

  /** The phase lengths, growth factors and restart bookkeeping are those of `s`. */
  predicate SameSchedule(s: State, t: State)
  {
    && t.warmupCycleMode == s.warmupCycleMode
    && t.nextRestart == s.nextRestart
    && t.maxLr == s.maxLr
    && t.warmupLength == s.warmupLength && t.warmupMultFactor == s.warmupMultFactor
    && t.initCooldownLength == s.initCooldownLength && t.initCooldownMultFactor == s.initCooldownMultFactor
    && t.cycleStepFlag == s.cycleStepFlag && t.flagswitch == s.flagswitch
  }

  /**
   * `on_batch_end`: the current mode's formula is written to the rate slot
   * and only that mode's batch counter advances; the applied rate and the
   * batch's logs are appended to the history. With an unrecognised mode
   * neither formula runs and the unchanged rate is recorded.
   */
  function BatchEnd(c: Config, s: State, logs: map<string, real>): (t: State)
    requires RateDefined(c, s)
    ensures s.warmupCycleMode == Warmup ==>
      && t.lr == WarmupRate(c.minLr, s.maxLr, c.stepsPerEpoch, s.warmupLength, s.batchSinceWarmup)
      && t.batchSinceWarmup == s.batchSinceWarmup + 1
      && t.batchSinceRestart == s.batchSinceRestart
    ensures s.warmupCycleMode == Cooldown ==>
      && t.lr == CooldownRate(c.minLr, s.maxLr, c.stepsPerEpoch, s.initCooldownLength,
                              s.batchSinceRestart, c.cos)
      && t.batchSinceRestart == s.batchSinceRestart + 1
      && t.batchSinceWarmup == s.batchSinceWarmup
    ensures s.warmupCycleMode != Warmup && s.warmupCycleMode != Cooldown ==>
      t.lr == s.lr && t.batchSinceWarmup == s.batchSinceWarmup && t.batchSinceRestart == s.batchSinceRestart
    ensures SameSchedule(s, t)
    ensures t.history == Recorded(s.history, t.lr, logs)
    ensures LrKey !in logs ==> Entry(t.history, LrKey) == Entry(s.history, LrKey) + [t.lr]
    ensures ModeInvariant(c, s) ==> ModeInvariant(c, t)
  {
    var stepped :=
      if s.warmupCycleMode == Warmup then
        s.(lr := WarmupRate(c.minLr, s.maxLr, c.stepsPerEpoch, s.warmupLength, s.batchSinceWarmup),
           batchSinceWarmup := s.batchSinceWarmup + 1)
      else if s.warmupCycleMode == Cooldown then
        s.(lr := CooldownRate(c.minLr, s.maxLr, c.stepsPerEpoch, s.initCooldownLength,
                              s.batchSinceRestart, c.cos),
           batchSinceRestart := s.batchSinceRestart + 1)
      else s;
    RecordedRate(s.history, stepped.lr, logs);
    stepped.(history := Recorded(s.history, stepped.lr, logs))
  }

  /** The cooldown length and factor a flip into cooldown starts from. */
  function CooldownBase(c: Config, s: State): (real, real)
  {
    if s.flagswitch == c.numberOfCooldownsBeforeSwitch then (c.newCooldownLength, c.newCooldownMultFactor)
    else (s.initCooldownLength, s.initCooldownMultFactor)
  }

  /** `on_epoch_end`'s flip into warmup: warmup grows to the ceiling of length times factor. */
  function EnterWarmup(s: State): (t: State)
    ensures IsCeilOf(t.warmupLength, s.warmupLength * s.warmupMultFactor)
    ensures t.nextRestart == s.nextRestart + t.warmupLength
    ensures t.warmupMultFactor == s.warmupMultFactor && t.maxLr == s.maxLr
    ensures t.warmupCycleMode == s.warmupCycleMode
    ensures t.batchSinceRestart == s.batchSinceRestart && t.batchSinceWarmup == s.batchSinceWarmup
    ensures t.initCooldownLength == s.initCooldownLength && t.initCooldownMultFactor == s.initCooldownMultFactor
    ensures t.cycleStepFlag == s.cycleStepFlag && t.flagswitch == s.flagswitch
    ensures t.lr == s.lr && t.history == s.history
  {
    var length := Grown(s.warmupLength, s.warmupMultFactor);
    s.(warmupLength := length, nextRestart := s.nextRestart + length)
  }

  /**
   * `on_epoch_end`'s flip into cooldown: it first takes the new length and factor
   * when `flagswitch` equals the switch count, then grows the length to the
   * ceiling of length times factor and counts the cooldown in `flagswitch`.
   */
  function EnterCooldown(c: Config, s: State): (t: State)
    ensures IsCeilOf(t.initCooldownLength, CooldownBase(c, s).0 * CooldownBase(c, s).1)
    ensures t.initCooldownMultFactor == CooldownBase(c, s).1
    ensures t.nextRestart == s.nextRestart + t.initCooldownLength
    ensures t.flagswitch == s.flagswitch + 1
    ensures t.warmupLength == s.warmupLength && t.warmupMultFactor == s.warmupMultFactor
    ensures t.maxLr == s.maxLr && t.warmupCycleMode == s.warmupCycleMode
    ensures t.batchSinceRestart == s.batchSinceRestart && t.batchSinceWarmup == s.batchSinceWarmup
    ensures t.cycleStepFlag == s.cycleStepFlag && t.lr == s.lr && t.history == s.history
  {
    var base := CooldownBase(c, s);
    var length := Grown(base.0, base.1);
    s.(initCooldownLength := length, initCooldownMultFactor := base.1,
       nextRestart := s.nextRestart + length, flagswitch := s.flagswitch + 1)
  }

  /** The flip check of `on_epoch_end` fires for this epoch. */
  predicate Flips(s: State, epoch: int)
  {
    (epoch + 1) as real == s.nextRestart
  }

  /**
   * The flip check: at the restart epoch the mode toggles and both batch
   * counters are reset; the phase being entered grows to the ceiling of
   * length times factor and the next restart moves that many epochs on. On
   * entering cooldown the length and factor are first replaced by the new
   * ones when `flagswitch` equals the switch count, and `flagswitch` grows.
   */
  function FlipCheck(c: Config, s: State, epoch: int): (t: State)
    ensures !Flips(s, epoch) ==> t == s
    ensures Flips(s, epoch) ==>
      && t.warmupCycleMode == Toggle(s.warmupCycleMode)
      && t.batchSinceRestart == 0 && t.batchSinceWarmup == 0
    ensures Flips(s, epoch) && t.warmupCycleMode == Warmup ==>
      && IsCeilOf(t.warmupLength, s.warmupLength * s.warmupMultFactor)
      && t.nextRestart == s.nextRestart + t.warmupLength
      && t.warmupMultFactor == s.warmupMultFactor
      && t.initCooldownLength == s.initCooldownLength
      && t.initCooldownMultFactor == s.initCooldownMultFactor
      && t.flagswitch == s.flagswitch
    ensures Flips(s, epoch) && t.warmupCycleMode == Cooldown ==>
      && IsCeilOf(t.initCooldownLength, CooldownBase(c, s).0 * CooldownBase(c, s).1)
      && t.initCooldownMultFactor == CooldownBase(c, s).1
      && t.nextRestart == s.nextRestart + t.initCooldownLength
      && t.flagswitch == s.flagswitch + 1
      && t.warmupLength == s.warmupLength && t.warmupMultFactor == s.warmupMultFactor
    ensures t.maxLr == s.maxLr && t.cycleStepFlag == s.cycleStepFlag
    ensures t.lr == s.lr && t.history == s.history
  {
    if !Flips(s, epoch) then s
    else
      var reset := s.(warmupCycleMode := Toggle(s.warmupCycleMode), batchSinceRestart := 0, batchSinceWarmup := 0);
      if reset.warmupCycleMode == Warmup then EnterWarmup(reset) else EnterCooldown(c, reset)
  }

  /** `check_mode`: which pre-restart count is the first drop. */
  function CheckMode(c: Config): int
    requires StartValid(c)
  {
    if c.ifWarmupCooldownStart == Cooldown then 1 else 2
  }

  /** The pre-restart check of `on_epoch_end` fires for this epoch. */
  predicate PreRestarts(s: State, epoch: int)
  {
    (epoch + 1) as real == s.nextRestart - 1.0
  }

  /**
   * The pre-restart check, one epoch before the next restart: the count of
   * such epochs grows by one; when it reaches `check_mode` the rate ceiling
   * takes the first drop (and, with `if_no_post_warmup == 0`, warmup is
   * pinned to one epoch with factor 1), otherwise it takes the general decay.
   */
  function PreRestartCheck(c: Config, s: State, epoch: int): (t: State)
    requires StartValid(c)
    ensures !PreRestarts(s, epoch) ==> t == s
    ensures PreRestarts(s, epoch) ==> t.cycleStepFlag == s.cycleStepFlag + 1
    ensures PreRestarts(s, epoch) && t.cycleStepFlag == CheckMode(c) ==>
      && t.maxLr == s.maxLr * c.firstLrDropMult
      && (c.ifNoPostWarmup == 0 ==> t.warmupLength == 1.0 && t.warmupMultFactor == 1.0)
      && (c.ifNoPostWarmup != 0 ==> t.warmupLength == s.warmupLength && t.warmupMultFactor == s.warmupMultFactor)
    ensures PreRestarts(s, epoch) && t.cycleStepFlag != CheckMode(c) ==>
      && t.maxLr == s.maxLr * c.generalLrDecay
      && t.warmupLength == s.warmupLength && t.warmupMultFactor == s.warmupMultFactor
    ensures t.warmupCycleMode == s.warmupCycleMode && t.nextRestart == s.nextRestart
    ensures t.batchSinceRestart == s.batchSinceRestart && t.batchSinceWarmup == s.batchSinceWarmup
    ensures t.initCooldownLength == s.initCooldownLength && t.initCooldownMultFactor == s.initCooldownMultFactor
    ensures t.flagswitch == s.flagswitch && t.lr == s.lr && t.history == s.history
  {
    if !PreRestarts(s, epoch) then s
    else
      var count := s.cycleStepFlag + 1;
      if count == CheckMode(c) then
        var dropped := s.(cycleStepFlag := count, maxLr := s.maxLr * c.firstLrDropMult);
        if c.ifNoPostWarmup == 0 then dropped.(warmupLength := 1.0, warmupMultFactor := 1.0)
        else dropped
      else
        s.(cycleStepFlag := count, maxLr := s.maxLr * c.generalLrDecay)
  }

  /**
   * `on_epoch_end`: the flip check, then the pre-restart check on the state
   * the flip check left. Fails before changing anything when the start flag
   * was never recognised.
   */
  function EpochEnd(c: Config, s: State, epoch: int): (r: Result)
    ensures r.Err? <==> !StartValid(c)
    ensures r.Err? ==> r.error == NextRestartUnset
    ensures r.Ok? ==> (r.state.warmupCycleMode != s.warmupCycleMode <==> Flips(s, epoch))
    ensures r.Ok? && Flips(s, epoch) ==> r.state.batchSinceRestart == 0 && r.state.batchSinceWarmup == 0
    ensures r.Ok? && !Flips(s, epoch) ==>
      r.state.batchSinceRestart == s.batchSinceRestart && r.state.batchSinceWarmup == s.batchSinceWarmup
    ensures r.Ok? ==> r.state.flagswitch >= s.flagswitch && r.state.cycleStepFlag >= s.cycleStepFlag
    ensures r.Ok? ==> r.state.lr == s.lr && r.state.history == s.history
    ensures r.Ok? && ModeInvariant(c, s) ==> ModeInvariant(c, r.state)
  {
    if !StartValid(c) then Err(NextRestartUnset)
    else Ok(PreRestartCheck(c, FlipCheck(c, s, epoch), epoch))
  }

  /** All phase lengths and growth factors, current and pending, are non-negative. */
  predicate LengthsNonNegative(c: Config, s: State)
  {
    && s.warmupLength >= 0.0 && s.warmupMultFactor >= 0.0
    && s.initCooldownLength >= 0.0 && s.initCooldownMultFactor >= 0.0
    && c.newCooldownLength >= 0.0 && c.newCooldownMultFactor >= 0.0
  }

  /** Both rate multipliers lie in [0, 1] and the rate ceiling is non-negative. */
  predicate DecayBounded(c: Config, s: State)
  {
    0.0 <= c.firstLrDropMult <= 1.0 && 0.0 <= c.generalLrDecay <= 1.0 && s.maxLr >= 0.0
  }

  /** With non-negative lengths and factors an epoch end never moves the next restart back. */
  lemma EpochEndNextRestart(c: Config, s: State, epoch: int)
    requires LengthsNonNegative(c, s)
    ensures EpochEnd(c, s, epoch).Ok? ==>
      && EpochEnd(c, s, epoch).state.nextRestart >= s.nextRestart
      && LengthsNonNegative(c, EpochEnd(c, s, epoch).state)
  {
    if StartValid(c) && Flips(s, epoch) {
      var base := CooldownBase(c, s);
      MulLeft(s.warmupLength, 0.0, s.warmupMultFactor);
      MulLeft(base.0, 0.0, base.1);
    }
  }

  /** With multipliers in [0, 1] an epoch end never raises the rate ceiling, nor makes it negative. */
  lemma EpochEndMaxLr(c: Config, s: State, epoch: int)
    requires DecayBounded(c, s)
    ensures EpochEnd(c, s, epoch).Ok? ==>
      && EpochEnd(c, s, epoch).state.maxLr <= s.maxLr
      && DecayBounded(c, EpochEnd(c, s, epoch).state)
  {
    if StartValid(c) {
      var f := FlipCheck(c, s, epoch);
      var t := PreRestartCheck(c, f, epoch);
      if PreRestarts(f, epoch) {
        ScaleDown(s.maxLr, c.firstLrDropMult, t.maxLr);
        ScaleDown(s.maxLr, c.generalLrDecay, t.maxLr);
      }
      assert EpochEnd(c, s, epoch) == Ok(t);
    }
  }

  /**
   * The order of the two checks matters: when the flip check fires, the
   * pre-restart check sees the moved restart and fires in the same call
   * exactly when the phase just entered is one epoch long.
   */
  lemma FlipThenPreRestart(c: Config, s: State, epoch: int)
    requires StartValid(c) && ModeInvariant(c, s) && Flips(s, epoch)
    ensures var t := FlipCheck(c, s, epoch);
            PreRestarts(t, epoch) <==>
              (if t.warmupCycleMode == Warmup then t.warmupLength else t.initCooldownLength) == 1.0
  {
  }
}
