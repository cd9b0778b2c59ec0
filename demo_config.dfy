/**
 * The configuration of index.ts as a test vector: four exponential retries
 * from 2 s doubling, one 30 s retry, then 60 s retries without bound, under
 * a global cap of 20 retries.
 */
module DemoConfig {
  import opened Wrappers
  import opened Types
  import opened TimeSeries
  import opened RetryDelay

  const Config: seq<Phase> := [
    Exponential(2, 2, Finite(4), Seconds),
    Constant(30, Finite(1), Seconds),
    Constant(60, Unbounded, Seconds)
  ]

  const DemoOptions: RetryOptions := RetryOptions(20, true, true)

  /** The first `n` delays of the exponential phase. */
  lemma ExponentialBlock(n: nat)
    requires n <= 4
    ensures PhaseSeries(Config[0], n) == [2000, 4000, 8000, 16000][..n]
  {
    assert Pow(2, 1) == 2 && Pow(2, 2) == 4 && Pow(2, 3) == 8;
    var e: seq<nat> := [2000, 4000, 8000, 16000];
    forall i | 0 <= i < n
      ensures PhaseSeries(Config[0], n)[i] == e[..n][i]
    {
      assert PhaseSeries(Config[0], n)[i] == 2 * Pow(2, i) * 1000;
    }
  }

  /** The first phase alone: the first min(cap, 4) exponential delays. */
  lemma DemoFirstPhase(cap: nat)
    ensures SeriesOf(Config[..1], cap) == Ok([2000, 4000, 8000, 16000][..MinRetries(cap, Finite(4))])
  {
    var e := MinRetries(cap, Finite(4));
    assert [] + [Config[0]] == Config[..1];
    SeriesOfSnoc([], Config[0], cap);
    ExponentialBlock(e);
    assert WellTyped(Config[0]) && Config[0].totalRetries == Finite(4);
    assert SeriesOf([] + [Config[0]], cap) == Ok([] + PhaseSeries(Config[0], e));
    var first: seq<nat> := [2000, 4000, 8000, 16000][..e];
    assert [] + first == first;
  }

  /** The first two phases: the exponential block, then the 30 s retry if the cap leaves room. */
  lemma DemoFirstTwoPhases(cap: nat)
    ensures SeriesOf(Config[..2], cap)
         == Ok([2000, 4000, 8000, 16000][..MinRetries(cap, Finite(4))] + (if cap > 4 then [30000] else []))
  {
    var first: seq<nat> := [2000, 4000, 8000, 16000][..MinRetries(cap, Finite(4))];
    DemoFirstPhase(cap);
    assert Config[..1] + [Config[1]] == Config[..2];
    SeriesOfSnoc(Config[..1], Config[1], cap);
    assert WellTyped(Config[1]) && Config[1].totalRetries == Finite(1);
    var c1 := MinRetries(cap - |first|, Finite(1));
    assert c1 == (if cap > 4 then 1 else 0);
    assert PhaseSeries(Config[1], c1) == (if cap > 4 then [30000] else []);
  }

  /**
   * For every cap: the first min(cap, 4) exponential delays, the 30 s retry
   * if the cap leaves room, and 60 s retries filling the rest of the cap.
   */
  lemma DemoSeriesForCap(cap: nat)
    ensures
      var e := MinRetries(cap, Finite(4));
      SeriesOf(Config, cap) == Ok([2000, 4000, 8000, 16000][..e]
                                  + (if cap > 4 then [30000] else [])
                                  + seq(if cap > 5 then cap - 5 else 0, _ => 60000))
  {
    var second := [2000, 4000, 8000, 16000][..MinRetries(cap, Finite(4))] + (if cap > 4 then [30000] else []);
    DemoFirstTwoPhases(cap);
    assert Config[..2] + [Config[2]] == Config;
    SeriesOfSnoc(Config[..2], Config[2], cap);
    assert WellTyped(Config[2]) && Config[2].totalRetries == Unbounded;
    assert |second| == (if cap > 5 then 5 else cap);
    assert PhaseSeries(Config[2], cap - |second|) == seq(if cap > 5 then cap - 5 else 0, _ => 60000);
  }

  /** The demo yields 2, 4, 8, 16 and 30 seconds, then fifteen minute-long waits. */
  lemma DemoSeries()
    ensures SeriesOf(Config, DemoOptions.totalRetries)
         == Ok([2000, 4000, 8000, 16000, 30000] + seq(15, _ => 60000))
  {
    DemoSeriesForCap(20);
    assert [2000, 4000, 8000, 16000][..4] + [30000] == [2000, 4000, 8000, 16000, 30000];
  }

  /** A cap of 5 keeps the exponential block and the single 30 s retry. */
  lemma DemoSeriesCappedAtFive()
    ensures SeriesOf(Config, 5) == Ok([2000, 4000, 8000, 16000, 30000])
  {
    DemoSeriesForCap(5);
    assert [2000, 4000, 8000, 16000][..4] + [30000] + seq(0, _ => 60000) == [2000, 4000, 8000, 16000, 30000];
  }

  /** A cap of 2 truncates the exponential block and drops the later phases. */
  lemma DemoSeriesCappedAtTwo()
    ensures SeriesOf(Config, 2) == Ok([2000, 4000])
  {
    DemoSeriesForCap(2);
    assert [2000, 4000, 8000, 16000][..2] + [] + seq(0, _ => 60000) == [2000, 4000];
  }

  /** The worked example at the end of retryMechanism.ts: 2 4 8 16 32 sums to 2 6 14 30 62. */
  lemma WorkedPrefixSums()
    ensures IsPrefixSumsOf([2, 6, 14, 30, 62], [2, 4, 8, 16, 32])
  {
    var s: seq<nat> := [2, 4, 8, 16, 32];
    assert s[..1] == [2] && s[..2] == [2, 4] && s[..3] == [2, 4, 8] && s[..4] == [2, 4, 8, 16] && s[..5] == s;
    assert [2, 4][..1] == [2] && [2, 4, 8][..2] == [2, 4] && [2, 4, 8, 16][..3] == [2, 4, 8];
    assert s[..4] == [2, 4, 8, 16];
    assert s[..|s| - 1] == [2, 4, 8, 16];
  }

  /**
   * Compensation: 10 s planned in total and 7 s already gone leaves 3 s;
   * 12 s gone leaves nothing to wait.
   */
  lemma CompensationExample(firstRequestedTime: int)
    requires firstRequestedTime != 0
    ensures
      var s := Schedule([4000, 6000], [4000, 10000]);
      var options := RetryOptions(2, true, false);
      NextDecision(s, 2, options, Some(firstRequestedTime), firstRequestedTime + 7000, 0) == Wait(3000) &&
      NextDecision(s, 2, options, Some(firstRequestedTime), firstRequestedTime + 12000, 0) == Wait(0) &&
      NextDecision(s, 3, options, Some(firstRequestedTime), firstRequestedTime + 12000, 0) == GiveUp
  {
  }
}
