# Retry-schedule engine

A Dafny model of the retry-schedule engine of `retryMechanism.ts`, with the
configuration types of `types.ts`.

A retry policy is an ordered list of phases. Each phase is EXPONENTIAL, LINEAR
or CONSTANT, has its own retry budget (`totalRetries`, possibly `Infinity`) and
its own time unit. A global cap (`options.totalRetries`) bounds the retries.
`calculateTimeSeries` flattens the phases into one list of millisecond delays.
Each phase is truncated to what is left of the cap. The function then computes
the running sums of that list. On each failed attempt, the `retryDelay`
callback picks the next delay in one of two modes:

- **Simple mode**: the scheduled delay, plus jitter when jitter is enabled.
- **Compensated mode** (time-outs included and a first-request timestamp
  present): the cumulative scheduled delay minus the time elapsed since the
  first request, clamped at zero.

The retry driver gives up once the retry count exceeds the length of the list.

Files:

- `wrappers.dfy`: `Option` and `Result`.
- `types.dfy` (module `Types`): `TimeUnit`, `Retries` (a count or `Infinity`), the `Phase` union, and `Math.min` / `+` on counts that may be `Infinity`.
- `time_series.dfy` (module `TimeSeries`):
  - the specification functions `SeriesOf`, `PhaseSeries` and `IsPrefixSumsOf`;
  - the imperative construction (`AppendPhase`, `BuildTimeSeries`, `PrefixSumsOf`, `CalculateTimeSeries`), which appends to an accumulator in loops as the source does;
  - lemmas on length, failure, append-only growth, growth formulas and running sums.
- `retry_delay.dfy` (module `RetryDelay`): the retry budget, `addJitter`, and the decision made by the `retryDelay` callback, with lemmas that relate the two modes.
- `demo_config.dfy` (module `DemoConfig`): the configuration of `index.ts` and the worked examples, as lemmas.

Modelling decisions:

- All magnitudes are natural numbers. Delays are unbounded integers; JavaScript numbers are doubles, but the demo's values are far below 2^53.
- `Math.random()` becomes the parameter `draw`, an integer below the jitter bound.
- `new Date().getTime()` becomes the parameter `now`.
- The `firstRequestedTime` header becomes an `Option<int>`. Because the source tests it with `!firstRequestedTime`, both `None` and `Some(0)` select simple mode.
- TypeScript types are erased at run time, so a configuration object may carry a growth tag outside the declared union. The variant `Phase.Unrecognised` stands for such an object; `WellTyped` says a phase is in the declared union.
- Construction details that follow from the code:
  - The `reduce` visits every phase, even after the cap is reached (those phases add zero delays), so an unrecognised tag anywhere in the list fails construction.
  - A missing growth-specific parameter does not raise an error in the code; it yields `NaN` delays (except the first delay of an exponential phase missing `factor`, since `Math.pow(undefined, 0)` is 1). The datatype makes every required parameter present, so this case does not arise in the model.
  - The running sums are non-decreasing, not strictly increasing, because zero delays are allowed.
  - A phase's `totalRetries` may be 0.

## Model

| member | source | states |
|---|---|---|
| `Types.TagDeterminesVariant` | types.ts:28-35 | the growth tag identifies exactly one variant, and a phase is in the declared union iff its tag is EXPONENTIAL, LINEAR or CONSTANT |
| `Types.MinRetries` | retryMechanism.ts:47-50 | `Math.min(bound, totalRetries)` with `Infinity`: never above the bound, equal to the bound or to the finite count, and equal to the bound for `Infinity` |
| `TimeSeries.UnitMultiplier` | retryMechanism.ts:51-61 | every unit multiplier is a positive whole number of seconds in milliseconds |
| `TimeSeries.UnitMultipliersNest` | retryMechanism.ts:52-61 | seconds are 1000 ms, a minute is 60 seconds, and an hour is 60 minutes |
| `TimeSeries.PhaseSeries` | retryMechanism.ts:65-82 | a recognised phase asked for `n` delays produces exactly `n` |
| `TimeSeries.ExponentialGrowth` | retryMechanism.ts:66-72 | an exponential phase's i-th delay is `initialDelay * factor^i * multiplier`: it starts at `initialDelay * multiplier` and each delay is the previous one times `factor` |
| `TimeSeries.LinearGrowth` | retryMechanism.ts:73-77 | a linear phase's i-th delay is `(i+1)` times its first, so consecutive delays differ by the first |
| `TimeSeries.ConstantGrowth` | retryMechanism.ts:78-82 | every delay of a constant phase is `retryInterval * multiplier` |
| `TimeSeries.SeriesOf` | retryMechanism.ts:46-89 | the flattened series never has more entries than the global cap |
| `TimeSeries.SeriesOfSnoc` | retryMechanism.ts:46-89 | appending a phase fails iff the earlier phases failed or the new one is unrecognised; otherwise the earlier series gains the phase's block of `min(cap - accumulated, totalRetries)` delays |
| `TimeSeries.SeriesLength` | retryMechanism.ts:46-50 | the series has `min(cap, Σ totalRetries)` entries, and an unbounded phase fills the rest of the cap |
| `TimeSeries.SeriesFailsIffUnrecognised` | retryMechanism.ts:83-84 | construction fails exactly when some phase, at any position, carries an unrecognised growth tag (the source also fails beyond the array-size limits listed under Left out) |
| `TimeSeries.SeriesExtends` | retryMechanism.ts:46-89 | values are only appended: the series of a list of phases is a prefix of the series of any extension of it |
| `TimeSeries.PhaseBlock` | retryMechanism.ts:46-82 | the series is the in-order concatenation of the phase blocks: phase k's delays sit right after those of phases 0..k-1 |
| `TimeSeries.PrefixSumStep` | retryMechanism.ts:93-100 | running sums satisfy `prefix[0] = series[0]` and `prefix[i] = prefix[i-1] + series[i]` |
| `TimeSeries.PrefixSumMonotone` | retryMechanism.ts:93-100 | running sums never decrease, and each is at least its own delay |
| `TimeSeries.PrefixSumLast` | retryMechanism.ts:93-100 | the last running sum is the total of the series |
| `TimeSeries.PrefixSumUnique` | retryMechanism.ts:93-100 | a series determines its running sums |
| `TimeSeries.AppendPhase` | retryMechanism.ts:51-85 | one `reduce` step appends the phase's block of `stoppingPoint` delays, or fails with "Invalid growth type" for an unrecognised tag |
| `TimeSeries.BuildTimeSeries` | retryMechanism.ts:46-89 | the loop over the phases computes exactly `SeriesOf` |
| `TimeSeries.PrefixSumsOf` | retryMechanism.ts:93-100 | the `forEach` loop computes the running sums of the series |
| `TimeSeries.CalculateTimeSeries` | retryMechanism.ts:41-106 | fails iff some phase is unrecognised (below the array-size limits listed under Left out); otherwise returns the series, its running sums, and a length of `min(totalRetries, Σ totalRetries)` |
| `RetryDelay.BudgetOfBuiltSchedule` | retryMechanism.ts:163-186 | the budget of a built schedule is `min(totalRetries, Σ phase totalRetries)`, so it never exceeds the global cap |
| `RetryDelay.JitterBound` | retryMechanism.ts:132-136 | the jitter bound is `min(1000, 100 * retryCount)` |
| `RetryDelay.AddJitter` | retryMechanism.ts:134-141 | without jitter the delay is unchanged; with jitter the draw is added; in both cases the result lies in `[delay, delay + bound)` |
| `RetryDelay.AdjustedDelay` | retryMechanism.ts:230-240 | the adjusted delay is zero iff elapsed time has reached the target, otherwise it makes elapsed plus delay equal the target; it never exceeds the target when elapsed time is non-negative |
| `RetryDelay.NextDecision` | retryMechanism.ts:179-257 | gives up iff the retry count exceeds the budget. Simple mode waits the scheduled delay: exactly that without jitter, plus the draw (less than the jitter bound) with jitter. Compensated mode waits until `firstRequestedTime + prefix[retryCount-1]`, or zero once that moment has passed |
| `RetryDelay.CompensatedIgnoresJitter` | retryMechanism.ts:227-257 | the compensated delay does not depend on the jitter draw |
| `RetryDelay.CompensatedAtMostCumulative` | retryMechanism.ts:231-240 | the compensated delay is at most the cumulative scheduled delay when the clock has not gone back |
| `RetryDelay.CompensatedOnScheduleIsSimple` | retryMechanism.ts:205-257 | if the previous retry went out at its scheduled moment and failed at once, the compensated decision equals the simple decision without jitter |
| `RetryDelay.CompensatedLateRetriesImmediately` | retryMechanism.ts:231-240 | once the time since the first request exceeds the whole schedule, every compensated retry waits 0 |
| `DemoConfig.ExponentialBlock` | index.ts:6-12 | the demo's exponential phase yields 2000, 4000, 8000, 16000 ms |
| `DemoConfig.DemoFirstPhase` | index.ts:6-12 | under any cap, the exponential phase alone yields the first min(cap, 4) of 2000, 4000, 8000, 16000 |
| `DemoConfig.DemoFirstTwoPhases` | index.ts:5-18 | under any cap, the first two phases add the 30 s retry after the exponential block when the cap leaves room |
| `DemoConfig.DemoSeriesForCap` | index.ts:5-25 | for any cap, the demo series is the truncated exponential block, then the 30 s retry if there is room, then 60 s retries up to the cap |
| `DemoConfig.DemoSeries` | index.ts:5-31 | with the demo's cap of 20 the series is 2000, 4000, 8000, 16000, 30000 followed by fifteen 60000 |
| `DemoConfig.DemoSeriesCappedAtFive` | index.ts:5-25 | a cap of 5 gives 2000, 4000, 8000, 16000, 30000 |
| `DemoConfig.DemoSeriesCappedAtTwo` | index.ts:5-25 | a cap of 2 gives 2000, 4000 |
| `DemoConfig.WorkedPrefixSums` | retryMechanism.ts:266-273 | the running sums of 2 4 8 16 32 are 2 6 14 30 62 |
| `DemoConfig.CompensationExample` | retryMechanism.ts:227-257 | a target of 10000 ms with 7000 ms elapsed waits 3000; with 12000 ms elapsed it waits 0; retry 3 of a 2-entry schedule gives up |

## Left out

- The axios wiring. This covers the request interceptor that stamps `firstRequestedTime` (retryMechanism.ts:154-160), the `axiosRetry` registration, `retryCondition` and `shouldResetTimeout`. The model keeps only the budget (`retries`), the give-up path, and the arithmetic inside `retryDelay`.
- Logging. All `console.*` calls and `logTimeBasedOnMilliseconds` are left out. Their output is only shown, with one exception: the log arguments `new Date(currentTimeStamp + delay).toISOString()` (retryMechanism.ts:221, 250-252) throw a RangeError for times beyond 8.64e15 ms. So in the source a huge delay makes `retryDelay` throw instead of returning, and the model does not capture that.
- `Math.random()` and `new Date()`: these are the parameters `draw` and `now`.
- `AddJitter`: the draw is an integer, whereas the source adds the fractional `Math.random() * bound`.
- Floating-point values: non-integer `factor`, `initialDelay` or `retryInterval`, NaN, and rounding of large doubles are not modelled. All parameters are natural numbers.
- The multiplier 1 for an unknown unit (retryMechanism.ts:62-63): `unitTypes` admits only seconds, minutes and hours.
- Negative `totalRetries`, globally or per phase. The source does not reject them uniformly: a negative `stoppingPoint` makes the CONSTANT branch throw at `new Array(stoppingPoint)` (retryMechanism.ts:80), while the EXPONENTIAL and LINEAR loops (retryMechanism.ts:67, 74) run zero times, so such a phase adds nothing and construction goes on (cap 10 with `[LINEAR totalRetries -3, CONSTANT totalRetries 5]` gives 5 delays, not `min(cap, Σ) = 2`). The model keeps all counts natural numbers.
- A global cap of `Infinity`: `options.totalRetries` is a natural number here. In the source an unbounded EXPONENTIAL or LINEAR phase under that cap loops forever (retryMechanism.ts:67, 74), and an unbounded CONSTANT phase throws at `new Array(Infinity)` (retryMechanism.ts:80).
- `CalculateTimeSeries` does not model the JavaScript engine's array-size limits at retryMechanism.ts:80. `new Array(stoppingPoint)` throws a RangeError once a CONSTANT block reaches 2^32 entries; an example is the demo's unbounded 60 s phase under a cap of 2^32 or `Number.MAX_SAFE_INTEGER`. Spreading a large block into `push(...)` can also throw, at far smaller sizes that depend on the engine. In those cases the source returns no schedule, while the model returns one.
- `SeriesFailsIffUnrecognised` ("fails iff some phase is unrecognised") describes the source only for blocks below those array-size limits, for the same reason.
- A retry count of 0: the retry driver counts retries from 1, so `NextDecision` requires `retryCount >= 1`.
- `index.ts` performs a real HTTP request. Only its configuration is used here, as a test vector.
