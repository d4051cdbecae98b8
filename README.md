# PatrickStar instrumentation accumulators in Dafny

A model of `patrickstar/utils/global_timer.py` from PatrickStar. The file
holds two process-wide accumulators for the training loop:

- `GlobalTimer` keeps, per key, the accumulated duration (`elapse_stat`) and
  the start timestamp of the interval in progress (`start_time`, where 0
  means "not running"). `start_profile` refuses to start a key that is
  running, `finish_profile` adds the elapsed time to the key's total and
  stops the key, `reset` zeroes every total, and `print` reports each total
  with padding dots and a percentage of the sum of the `FWD`, `BWD` and
  `ADAM` totals.
- `DataMoveCnter` keeps, per transfer key, the number of transfers
  (`times_dict`) and the bytes moved (`amount_dict`). `update` records one
  transfer, `reset` zeroes both maps, and `print` shows each key's amount,
  plus the transfer count and the throughput when the timer has a total
  under the same key and the amount is non-zero.

Files:

- `wrappers.dfy`: `Result` and `Outcome`, which carry the errors the Python
  code raises.
- `timing.dfy` (module `Timing`): the timer state as a value (`TimerState`),
  the pure transitions `Started`, `Finished` and `Cleared`, the class
  `GlobalTimer` whose methods update its two maps in place and are proved
  equal to those transitions, lemmas about sequences of calls, and the pure
  parts of `print`.
- `data_move.dfy` (module `DataMove`): the counter as a value (`Counter`),
  the transitions `Recorded` and `Zeroed`, the class `DataMoveCounter`, the
  lemmas about sequences of updates, and the pure parts of `print`.

Clock readings are explicit parameters of type `Tick` (a natural number
above 0), not readings of the system clock. The errors are values:
`AlreadyRunning` for the double-start assertion, `NeverStarted` for the
start-time lookup of a key never started, `MissingPhase` for the report's
lookup of a missing phase total. `print` of either class takes the state it
reads as a parameter, and `DataMoveCnter.print` gets the timer's totals as a
parameter instead of looking the timer up.

Two behaviours of the code are worth stating. Finishing fails only for a key
that was never started: that is the lookup error at lines 39/41. For a key
that is stopped, the start time reads as the sentinel 0, so the clock reading
`now` itself is added to the total (`FinishWhenStoppedAddsNow`). And the
guard at line 88 checks the amount, which is the dividend of the throughput;
the divisor, the timer total `elapse_stat[k]`, is not checked (see Findings).

## Model

| member | source | states |
|---|---|---|
| `Timing.Started` | patrickstar/utils/global_timer.py:31-35 | Fails with `AlreadyRunning` exactly when the key has a non-zero start time. Otherwise the key is running from `now`, no other key's start time changes, and the totals are untouched. |
| `Timing.GlobalTimer.StartProfile` | patrickstar/utils/global_timer.py:31-35 | The in-place update agrees with `Started`. On failure the object is unchanged. |
| `Timing.Finished` | patrickstar/utils/global_timer.py:37-42 | Fails with `NeverStarted` exactly when the key has no start time. Otherwise the key's total becomes the old total (0 if absent) plus `now` minus the start time. The key is then stopped, and every other key's total and start time is unchanged. |
| `Timing.GlobalTimer.FinishProfile` | patrickstar/utils/global_timer.py:37-42 | The in-place update agrees with `Finished`. On failure the object is unchanged. |
| `Timing.Cleared` | patrickstar/utils/global_timer.py:44-46 | Every total is 0, no key is added or removed, and the start times are untouched. |
| `Timing.GlobalTimer.Reset` | patrickstar/utils/global_timer.py:44-46 | The loop over the totals leaves the object equal to `Cleared` of its old state. |
| `Timing.GlobalTimer.constructor` | patrickstar/utils/global_timer.py:22-29 | A new timer has no totals and no start times. |
| `Timing.PairedSessionsAccumulate` | patrickstar/utils/global_timer.py:31-42 | Any number of matched start/finish pairs on a key that is not running all succeed. The key's total grows by the sum of the intervals and the key ends stopped. Every other key keeps its total and its running state. |
| `Timing.DoubleStartFails` | patrickstar/utils/global_timer.py:31-35 | A second start without a finish in between fails with `AlreadyRunning`. |
| `Timing.FinishThenStartSucceeds` | patrickstar/utils/global_timer.py:31-42 | After a successful finish, the key can be started again. |
| `Timing.ResetKeepsRunningInterval` | patrickstar/utils/global_timer.py:37-46 | A reset keeps a running interval running. Finishing it afterwards sets the total to `now` minus the original start. |
| `Timing.FinishWhenStoppedAddsNow` | patrickstar/utils/global_timer.py:37-42 | Finishing a stopped key succeeds and adds the whole clock reading to its total, because the start time reads as the sentinel 0. |
| `Timing.PaddingWidth` | patrickstar/utils/global_timer.py:50-52 | The column width is the maximum of 20 and the longest key's length plus 2. It is at least both, and equal to one of them. |
| `Timing.MissingPhaseOf` | patrickstar/utils/global_timer.py:53-54 | Succeeds exactly when `FWD`, `BWD` and `ADAM` all have totals. Otherwise it names the first missing phase, in the order the sum reads them. |
| `Timing.ProfileReport` | patrickstar/utils/global_timer.py:48-59 | Fails, naming the first missing phase, exactly when a phase total is missing. Otherwise the overall time is the sum of the three phase totals. Every key gets a dot count that pads it to the common width, at least 2 dots, and the width is at least 20. |
| `DataMove.Recorded` | patrickstar/utils/global_timer.py:70-76 | The key's count grows by 1 and its amount by the size, a new key starting from 0. The key set gains the key, every other key is unchanged, and both maps keep the same key set. |
| `DataMove.DataMoveCounter.Update` | patrickstar/utils/global_timer.py:70-76 | The in-place update agrees with `Recorded` and keeps the two key sets equal. |
| `DataMove.Zeroed` | patrickstar/utils/global_timer.py:78-81 | Every count and amount is 0, no key is added or removed, and both maps keep the same key set. |
| `DataMove.DataMoveCounter.Reset` | patrickstar/utils/global_timer.py:78-81 | The loop over the keys leaves the object equal to `Zeroed` of its old state and keeps the two key sets equal. |
| `DataMove.DataMoveCounter.constructor` | patrickstar/utils/global_timer.py:66-68 | A new counter has two empty maps. |
| `DataMove.Replay` | patrickstar/utils/global_timer.py:67-76 | Any sequence of updates keeps the two maps' key sets equal. |
| `DataMove.ReplayAccumulates` | patrickstar/utils/global_timer.py:70-76 | After any sequence of updates, each key's count grows by the number of updates for it and its amount by the sum of their sizes. A key is present exactly when it was present before or some update used it. |
| `DataMove.FromEmpty` | patrickstar/utils/global_timer.py:70-76 | Starting from a new counter, a key's count is its number of updates, its amount is the sum of their sizes, and it is present exactly when updated at least once. |
| `DataMove.TwoTransfersOfOneMiB` | patrickstar/utils/global_timer.py:70-76 | Two updates of 1048576 bytes under one key give count 2 and amount 2097152. |
| `DataMove.ResetMakesDivisorZero` | patrickstar/utils/global_timer.py:44-46 | After `GlobalTimer.reset`, any timed key with a non-zero amount passes the guard as written while its timer total, the divisor, is 0. |
| `DataMove.GuardAsWrittenAdmitsZeroDivisor` | patrickstar/utils/global_timer.py:88-89 | The throughput guard as written admits a key whose timer total is 0, so the throughput line divides by 0. |
| `DataMove.ThroughputGuardCorrected` | patrickstar/utils/global_timer.py:88-89 | The corrected guard of the throughput line admits only a key with a timer total that is non-zero, so the division at line 89 never divides by 0. |
| `DataMove.CorrectedGuardRefinesAsWritten` | patrickstar/utils/global_timer.py:88 | The corrected guard implies the guard as written (`ThroughputGuardAsWritten`: the key has a timer total and the amount is non-zero) and agrees with it whenever the timer total is non-zero. |
| `DataMove.GuardsDifferOnZeroDivisorOnly` | patrickstar/utils/global_timer.py:88-89 | The guard as written and the corrected guard differ exactly when the key has a timer total of 0 and a non-zero amount, the case that divides by 0. |
| `DataMove.Report` | patrickstar/utils/global_timer.py:83-94 | One line per key carrying the key's amount. The line shows the throughput exactly when the corrected guard holds, and then it carries the key's count and its non-zero timer total. On every key whose timer total is not 0, the line shows the throughput exactly when the branch condition of line 88 as written (`ThroughputGuardAsWritten`) holds. |
| `DataMove.UntimedKeyShowsAmountOnly` | patrickstar/utils/global_timer.py:88-94 | A key with no timer total gets the amount-only line. |
| `DataMove.ResetShowsNoThroughput` | patrickstar/utils/global_timer.py:78-94 | After a reset, no key shows a throughput. |

## Findings

| source | as written | input that shows it | evidently intended | confidence | as-written member | corrected member |
|---|---|---|---|---|---|---|
| patrickstar/utils/global_timer.py:88-89 | The guard checks that the amount (the dividend) is non-zero, then divides by the timer total `elapse_stat[k]`, which it does not check | a timer total of 0 under `k` (every total is 0 right after `GlobalTimer.reset`, see `DataMove.ResetMakesDivisorZero`) and a non-zero amount under `k` raise a division by zero | show the throughput only when the timer total is non-zero as well | not executed; medium | `DataMove.GuardAsWrittenAdmitsZeroDivisor` | `DataMove.ThroughputGuardCorrected` |

`DataMove.Report` uses the corrected guard.

## Left out

- The system clock: every clock reading is a `Tick` parameter. A clock that goes backwards is not ruled out, and it gives negative durations, but nothing specific to it is modelled.
- Durations are integers (clock ticks), not floating-point seconds.
- All logging output: the header lines, f-string formatting, and the conversions to MB and MB/s.
- The percentage and throughput divisions (floating point). The report carries their operands instead, and the division by a zero overall time at line 57 is not modelled.
- The order of report lines: Python dicts iterate in insertion order, while the model's report is a map keyed by name.
- `SingletonMeta` is not part of this model. Each accumulator is a separately constructed object, and the module-level instances at lines 61 and 97 are left out.
- The lookup `GlobalTimer()` inside `DataMoveCnter.print` at line 85: the timer's totals are a parameter of `DataMove.Report`.
- `DataMove.DataMoveCounter.Update` and `DataMove.DataMoveCounter.Reset` require the two maps to have the same key set. The class maintains this from construction on. The `KeyError` that mismatched maps would raise is therefore not modelled.
- Concurrent use: the code assumes one thread, and so does the model.
