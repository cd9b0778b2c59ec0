/**
 * Schedule construction (`calculateTimeSeries` in retryMechanism.ts): the
 * ordered phases and the global retry cap are flattened into one list of
 * millisecond delays, and then into the running sums of that list.
 *
 * `SeriesOf` and `IsPrefixSumsOf` specify the result; the methods
 * `BuildTimeSeries`, `PrefixSumsOf` and `CalculateTimeSeries` compute it the
 * way the source does, by appending to an accumulator inside loops.
 */
module TimeSeries {
  import opened Wrappers
  import opened Types

  /** The only error schedule construction raises: "Invalid growth type". */
  datatype BuildError = InvalidGrowthType

  /** The two lists `calculateTimeSeries` returns. */
  datatype Schedule = Schedule(series: seq<nat>, prefix: seq<nat>)

  /** Milliseconds per unit of a phase's parameters. */
  function UnitMultiplier(u: TimeUnit): (m: nat)
    ensures m >= 1000 && m % 1000 == 0
  {
    match u
    case Seconds => 1000
    case Minutes => 60 * 1000
    case Hours => 60 * 60 * 1000
  }

  lemma UnitMultipliersNest()
    ensures UnitMultiplier(Seconds) == 1000
    ensures UnitMultiplier(Minutes) == 60 * UnitMultiplier(Seconds)
    ensures UnitMultiplier(Hours) == 60 * UnitMultiplier(Minutes)
  {
  }

  /** `Math.pow` on naturals; `Math.pow(0, 0)` is 1 as well. */
  function Pow(base: nat, exp: nat): nat
  {
    if exp == 0 then 1 else base * Pow(base, exp - 1)
  }

  /** The delay the growth formula of a recognised phase gives at local index `i`. */
  function DelayAt(p: Phase, i: nat): nat
    requires WellTyped(p)
  {
    match p
    case Exponential(factor, initialDelay, _, unit) => initialDelay * Pow(factor, i) * UnitMultiplier(unit)
    case Linear(initialDelay, _, unit) => initialDelay * (i + 1) * UnitMultiplier(unit)
    case Constant(retryInterval, _, unit) => retryInterval * UnitMultiplier(unit)
  }

  /** The first `count` delays a recognised phase generates. */
  function PhaseSeries(p: Phase, count: nat): (s: seq<nat>)
    requires WellTyped(p)
    ensures |s| == count
  {
    seq(count, (i: int) requires 0 <= i => DelayAt(p, i))
  }

  /** An exponential phase starts at its initial delay and multiplies by its factor. */
  lemma ExponentialGrowth(p: Phase, count: nat, i: nat)
    requires p.Exponential? && i < count
    ensures PhaseSeries(p, count)[0] == p.initialDelay * UnitMultiplier(p.unit)
    ensures PhaseSeries(p, count)[i] == p.initialDelay * Pow(p.factor, i) * UnitMultiplier(p.unit)
    ensures i + 1 < count ==> PhaseSeries(p, count)[i + 1] == PhaseSeries(p, count)[i] * p.factor
  {
    var a, b, m := p.initialDelay, Pow(p.factor, i), UnitMultiplier(p.unit);
    assert Pow(p.factor, i + 1) == p.factor * b;
    assert a * (p.factor * b) * m == a * b * m * p.factor by {
      assert a * (p.factor * b) == a * b * p.factor;
    }
  }

  /** A linear phase's i-th delay is (i+1) times its first, so steps are equal. */
  lemma LinearGrowth(p: Phase, count: nat, i: nat)
    requires p.Linear? && i < count
    ensures PhaseSeries(p, count)[0] == p.initialDelay * UnitMultiplier(p.unit)
    ensures PhaseSeries(p, count)[i] == (i + 1) * PhaseSeries(p, count)[0]
    ensures i + 1 < count ==> PhaseSeries(p, count)[i + 1] == PhaseSeries(p, count)[i] + PhaseSeries(p, count)[0]
  {
  }

  /** A constant phase repeats one delay. */
  lemma ConstantGrowth(p: Phase, count: nat, i: nat)
    requires p.Constant? && i < count
    ensures PhaseSeries(p, count)[i] == p.retryInterval * UnitMultiplier(p.unit)
  {
  }

  /**
   * The series built from `phases` under the cap `cap`: the `reduce` of
   * retryMechanism.ts. Each phase, in order, appends
   * `min(cap - accumulated, phase.totalRetries)` delays; every phase is
   * visited, so an unrecognised growth tag fails the whole construction even
   * after the cap has been reached.
   */
  function SeriesOf(phases: seq<Phase>, cap: nat): (r: Result<seq<nat>, BuildError>)
    ensures r.Ok? ==> |r.value| <= cap
    decreases |phases|
  {
    if phases == [] then Ok([])
    else
      var p := phases[|phases| - 1];
      match SeriesOf(phases[..|phases| - 1], cap)
      case Err(e) => Err(e)
      case Ok(acc) =>
        if !WellTyped(p) then Err(InvalidGrowthType)
        else Ok(acc + PhaseSeries(p, MinRetries(cap - |acc|, p.totalRetries)))
  }

  /** The combined `totalRetries` of all phases, `Infinity` if any is. */
  function TotalCapacity(phases: seq<Phase>): (c: Retries)
    ensures phases == [] ==> c == Finite(0)
    decreases |phases|
  {
    if phases == [] then Finite(0)
    else AddRetries(TotalCapacity(phases[..|phases| - 1]), phases[|phases| - 1].totalRetries)
  }

  /** Adding one phase at the end: the earlier series is kept and the phase's block is appended. */
  lemma SeriesOfSnoc(phases: seq<Phase>, p: Phase, cap: nat)
    ensures SeriesOf(phases, cap).Err? || !WellTyped(p) <==> SeriesOf(phases + [p], cap).Err?
    ensures SeriesOf(phases + [p], cap).Ok? ==>
      var acc := SeriesOf(phases, cap).value;
      SeriesOf(phases + [p], cap).value == acc + PhaseSeries(p, MinRetries(cap - |acc|, p.totalRetries))
  {
  }

  /** The series has `min(cap, Σ totalRetries)` entries; an unbounded phase fills the cap. */
  lemma {:induction false} SeriesLength(phases: seq<Phase>, cap: nat)
    requires SeriesOf(phases, cap).Ok?
    ensures |SeriesOf(phases, cap).value| == MinRetries(cap, TotalCapacity(phases))
    decreases |phases|
  {
    if phases != [] {
      var init := phases[..|phases| - 1];
      SeriesLength(init, cap);
    }
  }

  /** Construction fails exactly when some phase carries an unrecognised growth tag. */
  lemma {:induction false} SeriesFailsIffUnrecognised(phases: seq<Phase>, cap: nat)
    ensures SeriesOf(phases, cap).Err? <==> exists i :: 0 <= i < |phases| && !WellTyped(phases[i])
    decreases |phases|
  {
    if phases != [] {
      var init := phases[..|phases| - 1];
      SeriesFailsIffUnrecognised(init, cap);
      if exists i :: 0 <= i < |init| && !WellTyped(init[i]) {
        var i :| 0 <= i < |init| && !WellTyped(init[i]);
        assert !WellTyped(phases[i]);
      }
      if exists i :: 0 <= i < |phases| && !WellTyped(phases[i]) {
        var i :| 0 <= i < |phases| && !WellTyped(phases[i]);
        if i < |init| {
          assert !WellTyped(init[i]);
        }
      }
    }
  }

  /** Values are only appended: later phases never change the series built from earlier ones. */
  lemma {:induction false} SeriesExtends(phases: seq<Phase>, more: seq<Phase>, cap: nat)
    requires SeriesOf(phases + more, cap).Ok?
    ensures SeriesOf(phases, cap).Ok?
    ensures SeriesOf(phases, cap).value <= SeriesOf(phases + more, cap).value
    decreases |more|
  {
    if more == [] {
      assert phases + more == phases;
    } else {
      var init := more[..|more| - 1];
      assert phases + more == (phases + init) + [more[|more| - 1]];
      SeriesOfSnoc(phases + init, more[|more| - 1], cap);
      SeriesExtends(phases, init, cap);
    }
  }

  /**
   * The series is the in-order concatenation of the phases' blocks: phase
   * `k` contributes `min(cap - accumulated, totalRetries)` delays of its own
   * growth formula, right after the delays of the phases before it.
   */
  lemma PhaseBlock(phases: seq<Phase>, k: nat, cap: nat)
    requires k < |phases| && SeriesOf(phases, cap).Ok?
    ensures SeriesOf(phases[..k], cap).Ok? && WellTyped(phases[k])
    ensures
      var s, before := SeriesOf(phases, cap).value, SeriesOf(phases[..k], cap).value;
      var c := MinRetries(cap - |before|, phases[k].totalRetries);
      |before| + c <= |s| && s[..|before|] == before && s[|before|..|before| + c] == PhaseSeries(phases[k], c)
  {
    var front := phases[..k] + [phases[k]];
    assert phases == front + phases[k + 1..];
    SeriesExtends(front, phases[k + 1..], cap);
    SeriesOfSnoc(phases[..k], phases[k], cap);
    SeriesExtends(phases[..k], [phases[k]], cap);
  }

  /** Sum of a list of delays. */
  function Sum(s: seq<nat>): nat
    decreases |s|
  {
    if s == [] then 0 else Sum(s[..|s| - 1]) + s[|s| - 1]
  }

  /** `prefix` holds the running sums of `series`. */
  predicate IsPrefixSumsOf(prefix: seq<nat>, series: seq<nat>)
  {
    |prefix| == |series| && forall i :: 0 <= i < |series| ==> prefix[i] == Sum(series[..i + 1])
  }

  /** The recurrence the source uses to build the running sums. */
  lemma PrefixSumStep(prefix: seq<nat>, series: seq<nat>, i: nat)
    requires IsPrefixSumsOf(prefix, series) && i < |series|
    ensures i == 0 ==> prefix[0] == series[0]
    ensures i > 0 ==> prefix[i] == prefix[i - 1] + series[i]
  {
    if i == 0 {
      assert series[..1][..0] == [];
      assert Sum(series[..1]) == Sum(series[..1][..0]) + series[..1][0];
    } else {
      assert series[..i + 1][..i] == series[..i];
    }
  }

  /** Running sums never decrease, and each one covers its own delay. */
  lemma PrefixSumMonotone(prefix: seq<nat>, series: seq<nat>, i: nat, j: nat)
    requires IsPrefixSumsOf(prefix, series) && i <= j < |series|
    ensures series[i] <= prefix[i] <= prefix[j]
    decreases j - i
  {
    PrefixSumStep(prefix, series, i);
    if i < j {
      PrefixSumStep(prefix, series, j);
      PrefixSumMonotone(prefix, series, i, j - 1);
    }
  }

  /** The last running sum is the total of the series. */
  lemma PrefixSumLast(prefix: seq<nat>, series: seq<nat>)
    requires IsPrefixSumsOf(prefix, series) && series != []
    ensures prefix[|prefix| - 1] == Sum(series)
  {
    assert series[..|series|] == series;
  }

  /** The running sums of a series are determined by it. */
  lemma PrefixSumUnique(p: seq<nat>, q: seq<nat>, series: seq<nat>)
    requires IsPrefixSumsOf(p, series) && IsPrefixSumsOf(q, series)
    ensures p == q
  {
  }

  /**
   * One step of the `reduce` of retryMechanism.ts: the `switch` on the
   * growth tag, pushing `stoppingPoint` delays of the phase's formula, or
   * failing with "Invalid growth type".
   */
  method AppendPhase(accumulator: seq<nat>, value: Phase, stoppingPoint: nat)
    returns (r: Result<seq<nat>, BuildError>)
    ensures WellTyped(value) ==> r == Ok(accumulator + PhaseSeries(value, stoppingPoint))
    ensures !WellTyped(value) ==> r == Err(InvalidGrowthType)
  {
    var unitMultiplier := UnitMultiplier(value.unit);
    var acc := accumulator;
    match value {
      case Exponential(factor, initialDelay, _, _) =>
        for i := 0 to stoppingPoint
          invariant acc == accumulator + PhaseSeries(value, i)
        {
          acc := acc + [initialDelay * Pow(factor, i) * unitMultiplier];
        }
      case Linear(initialDelay, _, _) =>
        for i := 0 to stoppingPoint
          invariant acc == accumulator + PhaseSeries(value, i)
        {
          acc := acc + [initialDelay * (i + 1) * unitMultiplier];
        }
      case Constant(retryInterval, _, _) =>
        var block := seq(stoppingPoint, _ => retryInterval * unitMultiplier);
        assert block == PhaseSeries(value, stoppingPoint);
        acc := acc + block;
      case Unrecognised(_, _, _) =>
        return Err(InvalidGrowthType);
    }
    r := Ok(acc);
  }

  /** The `reduce` of retryMechanism.ts: every phase in order, each appending its truncated block. */
  method BuildTimeSeries(phases: seq<Phase>, totalRetries: nat) returns (r: Result<seq<nat>, BuildError>)
    ensures r == SeriesOf(phases, totalRetries)
  {
    SeriesFailsIffUnrecognised(phases, totalRetries);
    var accumulator: seq<nat> := [];
    var k := 0;
    while k < |phases|
      invariant 0 <= k <= |phases|
      invariant SeriesOf(phases[..k], totalRetries) == Ok(accumulator)
    {
      var value := phases[k];
      SeriesOfSnoc(phases[..k], value, totalRetries);
      assert phases[..k + 1] == phases[..k] + [value];
      var stoppingPoint := MinRetries(totalRetries - |accumulator|, value.totalRetries);
      var next := AppendPhase(accumulator, value, stoppingPoint);
      if next.Err? {
        assert !WellTyped(phases[k]);
        ghost var e := SeriesOf(phases, totalRetries).error;
        assert e.InvalidGrowthType?;
        return next;
      }
      accumulator := next.value;
      k := k + 1;
    }
    assert phases[..k] == phases;
    r := Ok(accumulator);
  }

  /** The `forEach` of retryMechanism.ts: the running sums, one push per delay. */
  method PrefixSumsOf(series: seq<nat>) returns (prefix: seq<nat>)
    ensures IsPrefixSumsOf(prefix, series)
  {
    prefix := [];
    for index := 0 to |series|
      invariant |prefix| == index
      invariant forall i :: 0 <= i < index ==> prefix[i] == Sum(series[..i + 1])
    {
      var val := series[index];
      assert series[..index + 1][..index] == series[..index];
      if index == 0 {
        prefix := prefix + [val];
      } else {
        prefix := prefix + [prefix[index - 1] + val];
      }
    }
  }

  /**
   * `calculateTimeSeries`: the series and its running sums, or the
   * "Invalid growth type" error, in which case nothing is returned.
   */
  method CalculateTimeSeries(phases: seq<Phase>, totalRetries: nat) returns (r: Result<Schedule, BuildError>)
    ensures r.Err? <==> exists i :: 0 <= i < |phases| && !WellTyped(phases[i])
    ensures r.Ok? ==>
      SeriesOf(phases, totalRetries) == Ok(r.value.series) &&
      IsPrefixSumsOf(r.value.prefix, r.value.series) &&
      |r.value.series| == MinRetries(totalRetries, TotalCapacity(phases))
  {
    SeriesFailsIffUnrecognised(phases, totalRetries);
    var series := BuildTimeSeries(phases, totalRetries);
    if series.Err? {
      return Err(series.error);
    }
    SeriesLength(phases, totalRetries);
    var prefix := PrefixSumsOf(series.value);
    r := Ok(Schedule(series.value, prefix));
  }
}
