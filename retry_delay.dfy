/**
 * The per-attempt decision of `applyRetryMechanism` in retryMechanism.ts:
 * the retry budget handed to the retry driver, `addJitter`, and the
 * arithmetic of the `retryDelay` callback. `Math.random()` becomes the
 * parameter `draw` and `new Date().getTime()` the parameter `now`.
 */
module RetryDelay {
  import opened Wrappers
  import opened TimeSeries

  /** `minJitterDelayValue` and `maxJitterDelayValue`, in milliseconds. */
  const MinJitterDelayValue: nat := 100
  const MaxJitterDelayValue: nat := 1000

  /** The `totalRetries`, `includeTimeOuts` and `includeJitter` options. */
  datatype RetryOptions = RetryOptions(totalRetries: nat, includeTimeOuts: bool, includeJitter: bool)

  /** What the retry driver does after a failed attempt. */
  datatype Decision = Wait(delay: nat) | GiveUp

  /** The schedule is as `calculateTimeSeries` returns it. */
  predicate ValidSchedule(s: Schedule)
  {
    IsPrefixSumsOf(s.prefix, s.series)
  }

  /** `retries: retryTimeSeries.length`: how many retries the driver allows. */
  function RetryBudget(s: Schedule): nat
  {
    |s.series|
  }

  /** The retry budget is `min(totalRetries, Σ phase.totalRetries)`. */
  lemma BudgetOfBuiltSchedule(phases: seq<Types.Phase>, totalRetries: nat, s: Schedule)
    requires SeriesOf(phases, totalRetries) == Ok(s.series)
    ensures RetryBudget(s) == Types.MinRetries(totalRetries, TotalCapacity(phases))
    ensures RetryBudget(s) <= totalRetries
  {
    SeriesLength(phases, totalRetries);
  }

  /** `Math.min(maxJitterDelayValue, minJitterDelayValue * retryCount)`. */
  function JitterBound(retryCount: nat): (b: nat)
    ensures b <= MaxJitterDelayValue
    ensures b == MaxJitterDelayValue || b == MinJitterDelayValue * retryCount
    ensures b <= MinJitterDelayValue * retryCount
  {
    if MaxJitterDelayValue <= MinJitterDelayValue * retryCount then MaxJitterDelayValue
    else MinJitterDelayValue * retryCount
  }

  /**
   * `addJitter`: with jitter on, the delay plus a draw below the bound;
   * otherwise the delay unchanged.
   */
  function AddJitter(delay: nat, retryCount: nat, includeJitter: bool, draw: nat): (r: nat)
    requires draw < JitterBound(retryCount)
    ensures !includeJitter ==> r == delay
    ensures includeJitter ==> r == delay + draw
    ensures delay <= r < delay + JitterBound(retryCount)
  {
    if includeJitter then delay + draw else delay
  }

  /** Whether the compensated branch is taken: time-outs included and a truthy first timestamp. */
  predicate Compensates(options: RetryOptions, firstRequestedTime: Option<int>)
  {
    options.includeTimeOuts && firstRequestedTime.Some? && firstRequestedTime.value != 0
  }

  /** `desiredNexRetry - timeDiffFromFirstReq`, clamped at zero. */
  function AdjustedDelay(desired: nat, elapsed: int): (r: nat)
    ensures r == 0 <==> elapsed >= desired
    ensures r > 0 ==> elapsed + r == desired
    ensures elapsed >= 0 ==> r <= desired
  {
    if desired - elapsed > 0 then desired - elapsed else 0
  }

  /**
   * The driver's decision for the `retryCount`-th retry (1-based): give up
   * once the budget is exhausted; otherwise the simple delay, with jitter
   * when enabled, or the compensated delay measured from the first request.
   */
  function NextDecision(s: Schedule, retryCount: nat, options: RetryOptions,
                        firstRequestedTime: Option<int>, now: int, draw: nat): (d: Decision)
    requires |s.prefix| == |s.series|
    requires 1 <= retryCount && draw < JitterBound(retryCount)
    ensures d.GiveUp? <==> retryCount > RetryBudget(s)
    ensures d.Wait? && !Compensates(options, firstRequestedTime) ==>
      s.series[retryCount - 1] <= d.delay < s.series[retryCount - 1] + JitterBound(retryCount) &&
      (!options.includeJitter ==> d.delay == s.series[retryCount - 1]) &&
      (options.includeJitter ==> d.delay == s.series[retryCount - 1] + draw)
    ensures d.Wait? && Compensates(options, firstRequestedTime) ==>
      var elapsed := now - firstRequestedTime.value;
      (d.delay == 0 <==> elapsed >= s.prefix[retryCount - 1]) &&
      (d.delay > 0 ==> now + d.delay == firstRequestedTime.value + s.prefix[retryCount - 1])
  {
    if retryCount > RetryBudget(s) then GiveUp
    else if !Compensates(options, firstRequestedTime) then
      Wait(AddJitter(s.series[retryCount - 1], retryCount, options.includeJitter, draw))
    else
      Wait(AdjustedDelay(s.prefix[retryCount - 1], now - firstRequestedTime.value))
  }

  /** In compensated mode the jitter draw is ignored. */
  lemma CompensatedIgnoresJitter(s: Schedule, retryCount: nat, options: RetryOptions,
                                 firstRequestedTime: Option<int>, now: int, draw1: nat, draw2: nat)
    requires |s.prefix| == |s.series|
    requires 1 <= retryCount && draw1 < JitterBound(retryCount) && draw2 < JitterBound(retryCount)
    requires Compensates(options, firstRequestedTime)
    ensures NextDecision(s, retryCount, options, firstRequestedTime, now, draw1)
         == NextDecision(s, retryCount, options, firstRequestedTime, now, draw2)
  {
  }

  /** A compensated wait never exceeds the scheduled cumulative delay when the clock has not gone back. */
  lemma CompensatedAtMostCumulative(s: Schedule, retryCount: nat, options: RetryOptions,
                                    firstRequestedTime: Option<int>, now: int, draw: nat)
    requires |s.prefix| == |s.series|
    requires 1 <= retryCount <= RetryBudget(s) && draw < JitterBound(retryCount)
    requires Compensates(options, firstRequestedTime) && now >= firstRequestedTime.value
    ensures NextDecision(s, retryCount, options, firstRequestedTime, now, draw).delay <= s.prefix[retryCount - 1]
  {
  }

  /**
   * The two modes agree when the failed attempt took no time: if the
   * previous retry was sent exactly at its scheduled moment and failed at
   * once, the compensated wait is the scheduled delay of this retry.
   */
  lemma CompensatedOnScheduleIsSimple(s: Schedule, retryCount: nat, options: RetryOptions,
                                      firstRequestedTime: Option<int>, now: int, draw: nat)
    requires ValidSchedule(s)
    requires 1 <= retryCount <= RetryBudget(s) && draw < JitterBound(retryCount)
    requires Compensates(options, firstRequestedTime)
    requires now - firstRequestedTime.value == (if retryCount == 1 then 0 else s.prefix[retryCount - 2])
    ensures NextDecision(s, retryCount, options, firstRequestedTime, now, draw)
         == NextDecision(s, retryCount, options.(includeTimeOuts := false, includeJitter := false), firstRequestedTime, now, draw)
  {
    PrefixSumStep(s.prefix, s.series, retryCount - 1);
  }

  /**
   * Once the time since the first request has passed the whole schedule,
   * every compensated retry is sent at once.
   */
  lemma CompensatedLateRetriesImmediately(s: Schedule, retryCount: nat, options: RetryOptions,
                                          firstRequestedTime: Option<int>, now: int, draw: nat)
    requires ValidSchedule(s)
    requires 1 <= retryCount <= RetryBudget(s) && draw < JitterBound(retryCount)
    requires Compensates(options, firstRequestedTime)
    requires now - firstRequestedTime.value >= Sum(s.series)
    ensures NextDecision(s, retryCount, options, firstRequestedTime, now, draw) == Wait(0)
  {
    PrefixSumLast(s.prefix, s.series);
    PrefixSumMonotone(s.prefix, s.series, retryCount - 1, |s.series| - 1);
  }
}
