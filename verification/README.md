# SGDR scheduler with warmup restarts, in Dafny

A model of `SGDRScheduler_custom`, a Keras callback that drives the learning
rate in stochastic gradient descent with warm restarts (Loshchilov and Hutter,
"SGDR: Stochastic Gradient Descent with Warm Restarts", ICLR 2017). The
schedule alternates between two phases:

- **warmup** (mode 0): a linear ramp from `min_lr` up to `max_lr`;
- **cooldown** (mode 1): half a cosine period from `max_lr` down to `min_lr`.

After every batch, `on_batch_end` writes the current phase's rate into the
optimizer. It advances that phase's batch counter and appends the rate, and
any logged metrics, to `history`.

After every epoch, `on_epoch_end` runs two checks in a fixed order:

1. The flip check. At epoch `next_restart`, the phase flips and both counters
   reset. The phase being entered grows to `ceil(length * factor)` epochs, and
   `next_restart` moves on by that many epochs. On the flip into cooldown, the
   cooldown length and factor are replaced once, when `flagswitch` equals
   `number_of_cooldowns_before_switch`.
2. The pre-restart check. One epoch before the (possibly just moved) restart,
   it counts the occasion. The `check_mode`-th occasion takes the first drop
   of `max_lr`, and optionally pins warmup to one epoch. Every other occasion
   takes the general decay.

Modules:

- `SgdrRates` (rates.dfy): the two rate formulas, the ceiling, and their
  properties. `np.cos` is a parameter `cos: real -> real`. Each property
  assumes only what it names of `cos`.
- `SgdrHistory` (history.dfy): the `history` dictionary, as
  `map<string, seq<real>>`. It has a specification function `Recorded` and
  the loop that records a batch.
- `SgdrSchedule` (schedule.dfy): the settings (`Config`), the updated
  attributes (`State`), and one function per hook.
- `SgdrRun` (run.dfy): whole runs as sequences of hook calls. It proves the
  properties that span many calls, and it proves what the hooks do on one
  concrete warmup-start run.
- `SgdrCallback` (callback.dfy): the callback as a class. Its fields are
  updated in place, and each method is proved to change them exactly as the
  schedule function says.

Python's `not` on the mode (line 138) gives a bool that compares equal to 0
or 1. The model keeps the mode as an `int` and writes the toggle out as
`Toggle`.

A start flag other than 0 or 1 means `next_restart` is never assigned. The
first `on_epoch_end` then fails at line 137, before it changes anything. The
model returns `Err(NextRestartUnset)` in that case.

On the start flag, the class docstring (line 20) and the code disagree. The
same holds for `if_no_post_warmup` (line 27). The model follows the code
(lines 87-91 and 173-175).

## Model

| member | source | states |
|---|---|---|
| SgdrRates.Ceil | sgdr_custom/scheduler.py:144 | `np.ceil`: the result is an integer `r` with `x <= r < x + 1` |
| SgdrRates.CeilIsCeilOf | sgdr_custom/scheduler.py:144 | the ceiling is whole and lies within one of its argument |
| SgdrRates.Grown | sgdr_custom/scheduler.py:144 | a grown phase length is the ceiling of length times factor |
| SgdrRates.WarmupRate | sgdr_custom/scheduler.py:108-112 | the warmup rate is `min_lr` at batch 0 and `max_lr` at batch `steps_per_epoch * warmup_length` |
| SgdrRates.WarmupRateMonotone | sgdr_custom/scheduler.py:110-111 | with `max_lr >= min_lr`, the warmup rate does not decrease as the counter grows |
| SgdrRates.WarmupRateWithinPhase | sgdr_custom/scheduler.py:110-111 | inside the phase, the warmup rate lies in `[min_lr, max_lr]` |
| SgdrRates.WarmupRateOvershoots | sgdr_custom/scheduler.py:110-111 | the warmup rate is not clamped: past the end of the phase it exceeds `max_lr` |
| SgdrRates.CooldownRate | sgdr_custom/scheduler.py:101-106 | the cooldown rate is `max_lr` at batch 0 when `cos(0) = 1`, and `min_lr` at batch `steps_per_epoch * init_cooldown_length` when `cos(pi) = -1` |
| SgdrRates.CooldownRateMonotone | sgdr_custom/scheduler.py:103-104 | with a cosine that does not increase on `[0, pi]`, the cooldown rate does not increase within the phase |
| SgdrRates.CooldownRateBetween | sgdr_custom/scheduler.py:103-104 | with a cosine bounded by 1 in absolute value, the cooldown rate stays in `[min_lr, max_lr]` for every counter value |
| SgdrHistory.Recorded | sgdr_custom/scheduler.py:129-132 | after a batch, the history's keys are the old keys, the logged keys and "lr" |
| SgdrHistory.RecordedAppends | sgdr_custom/scheduler.py:130-132 | each list keeps its old values as a prefix and grows by one for "lr" and one per logged value; the rate comes first and a logged value last |
| SgdrHistory.RecordedLeavesOthers | sgdr_custom/scheduler.py:130-132 | keys that are neither "lr" nor logged keep their history unchanged |
| SgdrHistory.RecordedRate | sgdr_custom/scheduler.py:130 | when the logs hold no "lr", the rate history grows by exactly the applied rate |
| SgdrHistory.RecordedNoLogs | sgdr_custom/scheduler.py:130 | with empty logs, only the rate history changes |
| SgdrHistory.RecordedOneMore | sgdr_custom/scheduler.py:131-132 | one more pass of the logs loop appends that value under its key and changes nothing else |
| SgdrHistory.RecordBatch | sgdr_custom/scheduler.py:129-132 | the append and the loop over `logs` produce exactly `Recorded` |
| SgdrSchedule.Toggle | sgdr_custom/scheduler.py:138 | `not` on the mode: the result differs from the input, is 0 or 1, and is cooldown exactly when the input was warmup |
| SgdrSchedule.Init | sgdr_custom/scheduler.py:63-97 | all counters start at 0 and the history empty; the mode is the start flag; `next_restart` is `warmup_length` for a warmup start and `init_cooldown_length` for a cooldown start; the mode invariant holds: for a start flag of 0 or 1 exactly one mode is active, otherwise the mode keeps the unrecognised flag |
| SgdrSchedule.BatchEnd | sgdr_custom/scheduler.py:119-132 | warmup writes `warmup_clr` and advances only `batch_since_warmup`; cooldown writes `cosine_cooldown_clr` and advances only `batch_since_restart`; any other mode changes neither; mode, `next_restart`, `max_lr`, lengths and factors are kept; the history is `Recorded`, with one more "lr" entry; the mode invariant (exactly one mode active for a start flag of 0 or 1, the unrecognised flag kept otherwise) is preserved |
| SgdrSchedule.EnterWarmup | sgdr_custom/scheduler.py:143-145 | the warmup length becomes the ceiling of length times factor, and `next_restart` moves on by it; every other attribute is kept |
| SgdrSchedule.EnterCooldown | sgdr_custom/scheduler.py:149-157 | the cooldown length becomes the ceiling of the (possibly replaced) length times factor; `next_restart` moves on by it; `flagswitch` grows by one; every other attribute, warmup settings included, is kept |
| SgdrSchedule.FlipCheck | sgdr_custom/scheduler.py:137-159 | no flip leaves the state unchanged; a flip toggles the mode, zeroes both counters, and grows only the phase entered, taking the new cooldown settings when `flagswitch` equals the switch count |
| SgdrSchedule.PreRestartCheck | sgdr_custom/scheduler.py:162-178 | fires only at `epoch + 1 == next_restart - 1`, raising `cycle_step_flag` by one; at `check_mode` it applies the first drop (and with `if_no_post_warmup == 0` pins warmup length and factor to 1), otherwise the general decay; nothing else changes |
| SgdrSchedule.EpochEnd | sgdr_custom/scheduler.py:134-181 | fails exactly when the start flag is not 0 or 1; otherwise the mode changes iff `epoch + 1 == next_restart` on entry, the counters reset exactly then, `flagswitch` and `cycle_step_flag` never decrease, `lr` and history are kept, and exactly one mode stays active |
| SgdrSchedule.EpochEndNextRestart | sgdr_custom/scheduler.py:143-157 | with non-negative lengths and factors, `next_restart` does not decrease, and the lengths stay non-negative |
| SgdrSchedule.EpochEndMaxLr | sgdr_custom/scheduler.py:171-178 | with both multipliers in `[0, 1]` and `max_lr >= 0`, `max_lr` does not increase and stays non-negative |
| SgdrSchedule.FlipThenPreRestart | sgdr_custom/scheduler.py:137-162 | after a flip, the pre-restart check in the same call fires iff the phase just entered is one epoch long |
| SgdrRun.Step | sgdr_custom/scheduler.py:119-181 | a batch fails only on a zero denominator and keeps the schedule; an epoch end fails only for an unrecognised start flag |
| SgdrRun.RunModeInvariant | sgdr_custom/scheduler.py:122-143 | every state a run reaches keeps the mode invariant: for a start flag of 0 or 1 exactly one mode is active; for any other flag neither mode is ever set and the mode stays the unrecognised flag |
| SgdrRun.RunNextRestart | sgdr_custom/scheduler.py:143-157 | over a whole run, with non-negative lengths and factors, `next_restart` never moves back |
| SgdrRun.RunMaxLr | sgdr_custom/scheduler.py:171-178 | over a whole run, with multipliers in `[0, 1]`, `max_lr` stays in `[0, initial max_lr]` |
| SgdrRun.SubstitutionAtMostOnce | sgdr_custom/scheduler.py:151-157 | the cooldown substitution fires at most once per run, and never once `flagswitch` has passed the switch count |
| SgdrRun.FirstDropAtMostOnce | sgdr_custom/scheduler.py:163-172 | the first drop happens at most once per run, and never once the count has reached `check_mode` |
| SgdrRun.BatchesKeepSchedule | sgdr_custom/scheduler.py:119-132 | batches alone never change the mode, `next_restart`, `max_lr`, lengths, factors or counts of restarts |
| SgdrRun.WarmupBatches | sgdr_custom/scheduler.py:122-124 | `n` warmup batches advance only the warmup counter, by `n`, keep the schedule, and the last writes the ramp at the counter it found (one below the final count) |
| SgdrRun.ScenarioFirstBatches | sgdr_custom/scheduler.py:85-124 | a warmup start with warmup 2 and cooldown 3 epochs of 100 batches: the first restart is at epoch 2, and the 100th batch writes 0.050005, not the ramp's midpoint 0.0505, because the rate is computed before the counter advances |
| SgdrRun.ScenarioEarlyDecay | sgdr_custom/scheduler.py:162-178 | in that run the pre-restart check already fires at the end of epoch index 0 and applies the general decay while still in warmup: `max_lr` becomes 0.09 and the next batch writes 0.0455 |
| SgdrRun.ScenarioSecondEpoch | sgdr_custom/scheduler.py:137-157 | in that run the 200th batch writes 0.089555 and the flip at epoch index 1 enters cooldown with length 3 and `next_restart` 5 |
| SgdrRun.ScenarioWarmupStart | sgdr_custom/scheduler.py:119-178 | the two epochs of the example run back to back through the hooks: batch 100 writes 0.050005, batch 101 writes 0.0455, batch 200 writes 0.089555, and the flip at epoch index 1 enters cooldown with `next_restart` 5 |
| SgdrCallback.SGDRScheduler.constructor | sgdr_custom/scheduler.py:46-97 | the fields are the arguments, and the state is `Init` |
| SgdrCallback.SGDRScheduler.OnBatchEnd | sgdr_custom/scheduler.py:119-132 | the new fields are `BatchEnd` of the old ones; mode, `next_restart` and `max_lr` are unchanged |
| SgdrCallback.SGDRScheduler.OnEpochEnd | sgdr_custom/scheduler.py:134-181 | succeeds iff the start flag is 0 or 1; on success the new fields are `EpochEnd` of the old ones, on failure every field is unchanged |
| SgdrCallback.SGDRScheduler.RestartCheck | sgdr_custom/scheduler.py:137-159 | the new fields are `FlipCheck` of the old ones |
| SgdrCallback.SGDRScheduler.DropCheck | sgdr_custom/scheduler.py:162-178 | the new fields are `PreRestartCheck` of the old ones |

## Left out

- Keras plumbing: `K.set_value` and `K.get_value` become the field `lr`. The optimizer stores the rate as a 32-bit float, so the recorded value is rounded in the original; the model records the exact rate.
- The `Callback` base class and `on_train_begin` (lines 114-117). They only set the optimizer's rate, which the constructor's `lr` argument stands in for.
- `print` and `verbose` output (lines 99, 146-147, 158-159).
- The write of the rate into the caller's `logs` at the end of `on_epoch_end` (lines 180-181). It changes no callback attribute. `logs = None` is not modelled; an absent `logs` is the empty map.
- Floating point: rates, lengths and factors are reals. `np.ceil` is exact. The comparison `epoch + 1 == next_restart` is exact equality of reals. The rounding of products is not modelled.
- `np.cos` is a parameter. Properties of the cooldown rate hold for any `cos` with the named endpoint, monotonicity or range properties, not for the float library.
- Division by zero: `BatchEnd` and `OnBatchEnd` require a non-zero denominator (`RateDefined`). A run of hook calls stops with `Err(ZeroDivision)` there. numpy's `inf`/`nan` for float denominators is not modelled.
- The unbound `check_mode` for a start flag other than 0 or 1 (lines 165-168) is unreachable, because line 137 fails first. `CheckMode` therefore requires a valid start flag.
- SgdrSchedule.BatchEnd: the single "lr" append is stated only when the logs hold no "lr" key. A logged "lr" is appended to the same list as well, and `RecordedAppends` states that case.
