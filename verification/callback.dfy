/**
 * The SGDR callback object. Its attributes are fields; the two training
 * hooks update them in place and are proved to do exactly what
 * `SgdrSchedule.BatchEnd` and `SgdrSchedule.EpochEnd` say, so every property
 * proved of those functions (and of whole runs in SgdrRun) holds of the
 * object.
 */
module SgdrCallback {
  import opened SgdrRates
  import opened SgdrHistory
  import opened SgdrSchedule

  class SGDRScheduler {
    // Settings, fixed at construction.
    const minLr: real
    const stepsPerEpoch: int
    const firstLrDropMult: real
    const generalLrDecay: real
    const ifWarmupCooldownStart: int
    const ifNoPostWarmup: int
    const numberOfCooldownsBeforeSwitch: int
    const newCooldownLength: real
    const newCooldownMultFactor: real
    /** The cosine the cooldown formula calls (`np.cos`). */
    const cos: real -> real

    // Attributes the hooks update.
    var maxLr: real
    var warmupCycleMode: int
    var batchSinceRestart: nat
    var batchSinceWarmup: nat
    var nextRestart: real
    var warmupLength: real
    var warmupMultFactor: real
    var initCooldownLength: real
    var initCooldownMultFactor: real
    var cycleStepFlag: nat
    var flagswitch: nat
    var history: History

    /** The optimizer's learning-rate slot, written by the batch hook. */
    var lr: real

    function Settings(): Config
    {
      Config(minLr, stepsPerEpoch, firstLrDropMult, generalLrDecay, ifWarmupCooldownStart,
             ifNoPostWarmup, numberOfCooldownsBeforeSwitch, newCooldownLength, newCooldownMultFactor, cos)
    }

    function Snapshot(): State
      reads this
    {
      State(maxLr, warmupCycleMode, batchSinceRestart, batchSinceWarmup, nextRestart,
            warmupLength, warmupMultFactor, initCooldownLength, initCooldownMultFactor,
            cycleStepFlag, flagswitch, lr, history)
    }

    ghost predicate Valid()
      reads this
    {
      ModeInvariant(Settings(), Snapshot())
    }

    /** `__init__`; `lr` is the optimizer's rate slot as the caller hands it over. */
    constructor (minLr: real, maxLr: real, firstLrDropMult: real, stepsPerEpoch: int,
                 generalLrDecay: real, ifWarmupCooldownStart: int,
                 initCooldownLength: real, initCooldownMultFactor: real,
                 warmupLength: real, warmupMultFactor: real, ifNoPostWarmup: int,
                 numberOfCooldownsBeforeSwitch: int, newCooldownLength: real,
                 newCooldownMultFactor: real, cos: real -> real, lr: real)
      ensures Valid()
      ensures this.minLr == minLr && this.stepsPerEpoch == stepsPerEpoch
      ensures this.firstLrDropMult == firstLrDropMult && this.generalLrDecay == generalLrDecay
      ensures this.ifWarmupCooldownStart == ifWarmupCooldownStart && this.ifNoPostWarmup == ifNoPostWarmup
      ensures this.numberOfCooldownsBeforeSwitch == numberOfCooldownsBeforeSwitch
      ensures this.newCooldownLength == newCooldownLength && this.newCooldownMultFactor == newCooldownMultFactor
      ensures this.cos == cos
      ensures Snapshot() == Init(Settings(), maxLr, initCooldownLength, initCooldownMultFactor,
                                 warmupLength, warmupMultFactor, lr)
    {
      this.minLr := minLr;
      this.maxLr := maxLr;
      this.stepsPerEpoch := stepsPerEpoch;
      this.firstLrDropMult := firstLrDropMult;
      this.generalLrDecay := generalLrDecay;
      this.ifWarmupCooldownStart := ifWarmupCooldownStart;
      this.initCooldownLength := initCooldownLength;
      this.initCooldownMultFactor := initCooldownMultFactor;
      this.warmupLength := warmupLength;
      this.warmupMultFactor := warmupMultFactor;
      this.ifNoPostWarmup := ifNoPostWarmup;
      this.numberOfCooldownsBeforeSwitch := numberOfCooldownsBeforeSwitch;
      this.newCooldownLength := newCooldownLength;
      this.newCooldownMultFactor := newCooldownMultFactor;
      this.cos := cos;
      this.lr := lr;
      batchSinceRestart := 0;
      batchSinceWarmup := 0;
      warmupCycleMode := ifWarmupCooldownStart;
      // Left at 0.0 when the start flag is unrecognised: `next_restart` is then
      // never assigned, and OnEpochEnd fails before reading it.
      nextRestart := 0.0;
      if ifWarmupCooldownStart == Warmup {
        nextRestart := warmupLength;
      }
      if ifWarmupCooldownStart == Cooldown {
        nextRestart := initCooldownLength;
      }
      cycleStepFlag := 0;
      flagswitch := 0;
      history := map[];
    }

    /** `on_batch_end`: write the current mode's rate, advance its counter, record the batch. */
    method OnBatchEnd(logs: map<string, real>)
      requires Valid() && RateDefined(Settings(), Snapshot())
      modifies this
      ensures Valid()
      ensures Snapshot() == BatchEnd(Settings(), old(Snapshot()), logs)
      ensures warmupCycleMode == old(warmupCycleMode) && nextRestart == old(nextRestart) && maxLr == old(maxLr)
    {
      if warmupCycleMode == Warmup {
        lr := WarmupRate(minLr, maxLr, stepsPerEpoch, warmupLength, batchSinceWarmup);
        batchSinceWarmup := batchSinceWarmup + 1;
      }
      if warmupCycleMode == Cooldown {
        lr := CooldownRate(minLr, maxLr, stepsPerEpoch, initCooldownLength, batchSinceRestart, cos);
        batchSinceRestart := batchSinceRestart + 1;
      }
      history := RecordBatch(history, lr, logs);
    }

    /**
     * `on_epoch_end` for the 0-based `epoch` just finished: the flip check,
     * then the pre-restart check. `ok` is false, and nothing changes, when
     * the start flag was unrecognised and `next_restart` was never set.
     */
    method OnEpochEnd(epoch: int) returns (ok: bool)
      requires Valid()
      modifies this
      ensures Valid()
      ensures ok <==> StartValid(Settings())
      ensures !ok ==> Snapshot() == old(Snapshot())
      ensures EpochEnd(Settings(), old(Snapshot()), epoch)
              == if ok then Ok(Snapshot()) else Err(NextRestartUnset)
    {
      if !StartValid(Settings()) {
        return false;
      }
      RestartCheck(epoch);
      DropCheck(epoch);
      ok := true;
    }

    /** `on_epoch_end`'s flip check: at the restart epoch, flip the mode and grow the phase being entered. */
    method RestartCheck(epoch: int)
      modifies this
      ensures Snapshot() == FlipCheck(Settings(), old(Snapshot()), epoch)
    {
      if (epoch + 1) as real == nextRestart {
        warmupCycleMode := Toggle(warmupCycleMode);
        batchSinceRestart := 0;
        batchSinceWarmup := 0;
        ghost var reset := Snapshot();

        if warmupCycleMode == Warmup {
          warmupLength := Grown(warmupLength, warmupMultFactor);
          nextRestart := nextRestart + warmupLength;
          assert Snapshot() == EnterWarmup(reset);
        }

        if warmupCycleMode == Cooldown {
          if flagswitch == numberOfCooldownsBeforeSwitch {
            initCooldownLength := newCooldownLength;
            initCooldownMultFactor := newCooldownMultFactor;
          }
          initCooldownLength := Grown(initCooldownLength, initCooldownMultFactor);
          nextRestart := nextRestart + initCooldownLength;
          flagswitch := flagswitch + 1;
          assert Snapshot() == EnterCooldown(Settings(), reset);
        }
      }
    }

    /** `on_epoch_end`'s pre-restart check: one epoch before the restart, drop or decay the rate ceiling. */
    method DropCheck(epoch: int)
      requires StartValid(Settings())
      modifies this
      ensures Snapshot() == PreRestartCheck(Settings(), old(Snapshot()), epoch)
    {
      if (epoch + 1) as real == nextRestart - 1.0 {
        cycleStepFlag := cycleStepFlag + 1;
        var checkMode := CheckMode(Settings());
        if cycleStepFlag == checkMode {
          maxLr := maxLr * firstLrDropMult;
          if ifNoPostWarmup == 0 {
            warmupLength := 1.0;
            warmupMultFactor := 1.0;
          }
        } else {
          maxLr := maxLr * generalLrDecay;
        }
      }
    }
  }
}
