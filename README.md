# Stopwatch, modelled in Dafny

A model of the `Stopwatch` class of tsdotnet/stopwatch (`src/Stopwatch.ts`):
an object that measures elapsed time across start/stop cycles and splits it
into laps. It keeps three private fields: the time stamp at which the lap in
progress began, the milliseconds of every finished lap, and whether it runs.
`start`, `stop`, `reset` and `lap` update them in place. The getters
`currentLapMilliseconds`, `currentLap`, `elapsedMilliseconds` and `elapsed`
compute from them and the clock. The static `startNew` creates an instance
and starts it; `measure` uses no instance: it reads the clock before and after
the closure.

The wall clock (`Date.now()`) becomes an explicit parameter `now`, in whole
milliseconds, passed to every operation and getter that reads it. A duration
(`TimeSpan`) is kept only as its total number of milliseconds.

Files:

- `wrappers.dfy`: module `Wrappers`, an `Option` type.
- `stopwatch_spec.dfy`: module `StopwatchSpec`, the fields as a value
  `State`, and each operation as a function on it. The NaN start stamp of a new
  or reset stopwatch is `None`. Also lemmas about single operations.
- `stopwatch_traces.dfy`: module `StopwatchTraces`. It covers sequences of
  operations, each with its clock reading. `RunningTime` is a reference
  definition of elapsed time: the summed length of the intervals during which
  the stopwatch runs. For traces without a reset it is proved equal to what
  the accumulator reports.
- `stopwatch.dfy`: module `Stopwatch`, the class `Stopwatch` with the three
  fields. Its methods update them in place (`modifies this`). Each getter and
  mutator is proved to agree with `StopwatchSpec`. The module also holds the
  scenarios of the test suite, stated as methods on the class and proved.

`stop` (`src/Stopwatch.ts:125-133`) leaves the start stamp as it was: it
touches only `_elapsed` and `_isRunning`, and so does the model. Only `reset`
sets the stamp back to NaN. The stale stamp is never read while stopped.

The class getters `CurrentLapMilliseconds` and `ElapsedMilliseconds`
(`src/Stopwatch.ts:42-47`, `:64-73`) are proved equal to
`StopwatchSpec.CurrentLapMilliseconds` and `StopwatchSpec.ElapsedMilliseconds`
on the class's fields. The lemmas about the current lap and the elapsed time
are stated about those two functions, so they hold of the class.

## Model

| member | source | states |
|---|---|---|
| StopwatchSpec.Initial | src/Stopwatch.ts:14-27 | a new stopwatch is stopped and its elapsed time is 0 at every clock reading |
| StopwatchSpec.Start | src/Stopwatch.ts:111-119 | start leaves the accumulated time alone and always ends running; from stopped it makes the current lap 0 at `now`, so the elapsed time at `now` does not change; when already running it changes nothing |
| StopwatchSpec.Stop | src/Stopwatch.ts:125-133 | stop ends not running with the elapsed time at `now` unchanged, and from then on the elapsed time is frozen at every later clock reading; the start stamp is kept; when already stopped it changes nothing |
| StopwatchSpec.Reset | src/Stopwatch.ts:138-144 | from any state, running or not, reset yields exactly the state of a new stopwatch |
| StopwatchSpec.Lap | src/Stopwatch.ts:146-165 | lap returns the current lap length and folds exactly that into the accumulated time; the elapsed time at `now` is unchanged, the new current lap is 0, and the running flag is kept; when stopped it returns zero and changes nothing |
| StopwatchSpec.StartIsIdempotent | src/Stopwatch.ts:111-119 | a second start, at any clock reading, has no effect |
| StopwatchSpec.StopIsIdempotent | src/Stopwatch.ts:125-133 | a second stop, at any clock reading, has no effect |
| StopwatchSpec.ElapsedFollowsClock | src/Stopwatch.ts:64-73 | as the clock moves forward, the elapsed time grows by exactly the clock's advance while running and stays the same while stopped; it never decreases |
| StopwatchSpec.LapSplitsWithoutLoss | src/Stopwatch.ts:151-162 | two laps add up to the single lap taken at the later reading, and leave the same state; a lap loses and double-counts no time |
| StopwatchTraces.ElapsedIsRunningTime | src/Stopwatch.ts:121-162 | after any reset-free sequence of start/stop/lap, the elapsed time equals the elapsed time before plus the summed length of the running intervals between clock readings (the reference definition), for any clock |
| StopwatchTraces.ElapsedNeverDecreases | src/Stopwatch.ts:121-123 | if the clock never goes back, no sequence of starts, stops and laps lowers the elapsed time ("elapsed time is cumulative"); only a reset can lower it |
| StopwatchTraces.RunStaysSane | src/Stopwatch.ts:14-16 | if the clock never goes back, every sequence of operations, resets included, keeps the accumulated time non-negative and a running stopwatch's start stamp no later than the clock; so the elapsed time is never negative |
| StopwatchTraces.LapNonNegative | src/Stopwatch.ts:151-162 | if the clock has not gone back since the lap began, a lap returns a non-negative length |
| StopwatchTraces.ResetForgetsHistory | src/Stopwatch.ts:138-144 | whatever came before a reset, the operations after it behave exactly as on a new stopwatch |
| StopwatchTraces.TwoCyclesAccumulate | src/Stopwatch.ts:121-133 | two start/stop cycles on a new stopwatch show the first stretch after the first stop and the sum of both stretches after the second |
| Stopwatch.Stopwatch.constructor | src/Stopwatch.ts:14-27 | the fields of a new instance are the initial state: not running, elapsed time 0 at every clock reading |
| Stopwatch.Stopwatch.CurrentLapMilliseconds | src/Stopwatch.ts:42-47 | the getter on the fields agrees with the state machine's current lap: time since the start stamp when running, 0 when stopped |
| Stopwatch.Stopwatch.CurrentLap | src/Stopwatch.ts:53-58 | the duration getter carries the same milliseconds as the current lap in both branches, including the zero duration when stopped |
| Stopwatch.Stopwatch.ElapsedMilliseconds | src/Stopwatch.ts:64-73 | the getter on the fields agrees with the state machine's elapsed time, so every lemma about elapsed time holds of the class |
| Stopwatch.Stopwatch.Elapsed | src/Stopwatch.ts:22-25 | the elapsed duration is the finished laps plus the current lap |
| Stopwatch.Stopwatch.Start | src/Stopwatch.ts:111-119 | the new fields are the state machine's start of the old ones: running, accumulated time kept, stamp set to `now` only if it was stopped |
| Stopwatch.Stopwatch.Stop | src/Stopwatch.ts:125-133 | the new fields are the state machine's stop of the old ones: the current lap added to the accumulated time if it was running, then not running, stamp kept |
| Stopwatch.Stopwatch.Reset | src/Stopwatch.ts:138-144 | the new fields are those of a new stopwatch: accumulated 0, not running, stamp NaN |
| Stopwatch.Stopwatch.Lap | src/Stopwatch.ts:151-165 | when running, returns `now` minus the old stamp, adds it to the accumulated time and moves the stamp to `now`; when stopped, returns zero and leaves every field unchanged |
| Stopwatch.Stopwatch.StartNew | src/Stopwatch.ts:88-93 | returns a new stopwatch that runs from `now` with nothing accumulated |
| Stopwatch.Stopwatch.Measure | src/Stopwatch.ts:100-105 | a duration comes back exactly when the closure returns, and it is the difference of the two clock readings; it is non-negative when the clock did not go back |
| Stopwatch.FreshIsStoppedAtZero | tests/index.test.ts:12-16 | a new stopwatch is not running and shows 0 elapsed and 0 current lap |
| Stopwatch.CyclesAccumulate | tests/index.test.ts:48-59 | on the class, the second of two start/stop cycles strictly increases the elapsed time once the clock has moved |
| Stopwatch.ResetWhileRunning | tests/index.test.ts:143-149 | reset on a running stopwatch leaves it stopped with 0 elapsed |
| Stopwatch.LapScenarios | tests/index.test.ts:85-96 | a lap while running returns the time since the start and keeps running; a lap on a stopwatch never started returns zero and leaves it stopped |

## Left out

- `getTimestampMilliseconds` and every `Date.now()` call: the wall clock is a parameter `now`. Clock resolution and real monotonicity are not modelled. The results that need a clock that never goes back take that as a precondition.
- `TimeSpan` comes from an external library (`@tsdotnet/date-time`) that is not part of this model. It is kept only as its total milliseconds, with `TimeSpan.zero` as 0. Its unit conversions are not modelled.
- The call of the closure inside `measure`: arbitrary foreign code. Only its outcome is modelled: it returned, with the clock then reading some value, or it threw and no duration is returned.
- The `Timer` interface (`src/Timer.d.ts`): it declares `isRunning`, `start`, `stop` and `reset` and has no behaviour of its own. The class provides all four, so no separate type is modelled.
- The `isRunning` getter is a plain read of the field, which the model exposes as the field `isRunning`.
- JavaScript numbers and NaN arithmetic: milliseconds are unbounded integers, since the clock yields whole milliseconds. NaN is `None`, and the model never reads it, just as the code reads the stamp only while running.
- The compiled copies under `dist/` and `dist-esm/`: they repeat the logic of `src/Stopwatch.ts`.
- The test suite's checks of time-unit constants from the date-time library, its timing tolerances and its sleeps.
- Concurrent use of one stopwatch: the class is single-threaded.
