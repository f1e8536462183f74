/**
 * The average-volume indicator: the mean of the usable volumes among the last `period`
 * price rows, and the rule that puts it into the indicator bundle. The floating-point
 * indicators (RSI, moving averages, ATR) are not part of this model.
 */
module Indicators {
  import opened Wrappers

  /** A stored price row as the volume average sees it: the volume may be missing. */
  datatype StockPrice = StockPrice(volume: Option<int>)

  /** The look-back periods the indicators are computed over. */
  datatype IndicatorParameters = IndicatorParameters(
    rsiPeriod: int, smaShortPeriod: int, smaMediumPeriod: int, smaLongPeriod: int)

  /** The integer part of the indicator bundle: absent unless it was computed. */
  datatype IndicatorBundle = IndicatorBundle(avgVolume20: Option<int>) {
    predicate HasAvgVolume() { avgVolume20.Some? }
  }

  /** A volume counts towards the average only when present and positive. */
  predicate Usable(v: Option<int>) {
    v.Some? && v.value > 0
  }

  /** The usable volumes of `s`, in order. */
  function UsableVolumes(s: seq<StockPrice>): (r: seq<int>)
    ensures |r| <= |s|
    ensures forall k :: 0 <= k < |r| ==> r[k] > 0
  {
    if |s| == 0 then []
    else if Usable(s[|s| - 1].volume) then UsableVolumes(s[..|s| - 1]) + [s[|s| - 1].volume.value]
    else UsableVolumes(s[..|s| - 1])
  }

  function Sum(xs: seq<int>): int {
    if |xs| == 0 then 0 else Sum(xs[..|xs| - 1]) + xs[|xs| - 1]
  }

  /** The rows the average looks at: the last `period` of them, none for a period below one. */
  function Window(prices: seq<StockPrice>, period: int): (w: seq<StockPrice>)
    requires period <= |prices|
    ensures |w| == (if period <= 0 then 0 else period)
    ensures period > 0 ==> w == prices[|prices| - period..]
  {
    if period <= 0 then [] else prices[|prices| - period..]
  }

  /**
   * calculateAvgVolume: nothing when there are fewer rows than the period or no usable
   * volume among the last `period`; otherwise their sum divided by their number,
   * rounded down.
   */
  function AvgVolumeOf(prices: seq<StockPrice>, period: int): Option<int> {
    if |prices| < period then None
    else
      var vs := UsableVolumes(Window(prices, period));
      if |vs| == 0 then None else Some(Sum(vs) / |vs|)
  }

  lemma SumAppend(xs: seq<int>, v: int)
    ensures Sum(xs + [v]) == Sum(xs) + v
  {
    assert (xs + [v])[..|xs|] == xs;
  }

  /** Extending a slice by one row adds that row's volume when it is usable. */
  lemma UsableStep(s: seq<StockPrice>, lo: int, i: int)
    requires 0 <= lo <= i < |s|
    ensures UsableVolumes(s[lo..i + 1]) ==
      UsableVolumes(s[lo..i]) + (if Usable(s[i].volume) then [s[i].volume.value] else [])
  {
    assert s[lo..i + 1][..i - lo] == s[lo..i];
  }

  method CalculateAvgVolume(prices: seq<StockPrice>, period: int) returns (r: Option<int>)
    ensures r == AvgVolumeOf(prices, period)
    ensures r.None? <==> |prices| < period || UsableVolumes(Window(prices, period)) == []
  {
    if |prices| < period {
      return None;
    }
    var sum := 0;
    var count := 0;
    var i := |prices| - period;
    ghost var start := i;
    while i < |prices|
      invariant period <= 0 ==> i == start && sum == 0 && count == 0
      invariant period > 0 ==> 0 <= start <= i <= |prices|
      invariant period > 0 ==> sum == Sum(UsableVolumes(prices[start..i]))
      invariant period > 0 ==> count == |UsableVolumes(prices[start..i])|
    {
      var volume := prices[i].volume;
      ghost var seen := UsableVolumes(prices[start..i]);
      UsableStep(prices, start, i);
      if volume.Some? && volume.value > 0 {
        SumAppend(seen, volume.value);
        assert UsableVolumes(prices[start..i + 1]) == seen + [volume.value];
        sum := sum + volume.value;
        count := count + 1;
      } else {
        assert UsableVolumes(prices[start..i + 1]) == seen;
      }
      i := i + 1;
    }
    if period > 0 {
      assert prices[start..i] == Window(prices, period);
    }
    if count == 0 {
      return None;
    }
    return Some(sum / count);
  }

  /** A lower bound on every element bounds the sum from below. */
  lemma {:induction false} SumAtLeast(xs: seq<int>, lo: int)
    requires forall k :: 0 <= k < |xs| ==> lo <= xs[k]
    ensures |xs| * lo <= Sum(xs)
  {
    if |xs| > 0 {
      SumAtLeast(xs[..|xs| - 1], lo);
    }
  }

  /** An upper bound on every element bounds the sum from above. */
  lemma {:induction false} SumAtMost(xs: seq<int>, hi: int)
    requires forall k :: 0 <= k < |xs| ==> xs[k] <= hi
    ensures Sum(xs) <= |xs| * hi
  {
    if |xs| > 0 {
      SumAtMost(xs[..|xs| - 1], hi);
    }
  }

  lemma MulMonotonic(n: int, a: int, b: int)
    requires n > 0 && a <= b
    ensures n * a <= n * b
  {
    assert n * b - n * a == n * (b - a);
  }

  /** Dividing a sum of `n` values that are each at least `lo` gives at least `lo`. */
  lemma QuotientAtLeast(sum: int, n: int, lo: int)
    requires n > 0 && n * lo <= sum
    ensures lo <= sum / n
  {
    var q := sum / n;
    assert sum == n * q + sum % n;
    if q < lo {
      MulMonotonic(n, q + 1, lo);
    }
  }

  /** Dividing a sum of `n` values that are each at most `hi` gives at most `hi`. */
  lemma QuotientAtMost(sum: int, n: int, hi: int)
    requires n > 0 && sum <= n * hi
    ensures sum / n <= hi
  {
    var q := sum / n;
    assert sum == n * q + sum % n;
    if q > hi {
      MulMonotonic(n, hi + 1, q);
    }
  }

  /**
   * The average is a usable volume's size: it lies between the smallest and largest
   * usable volume of the window, and so is positive.
   */
  lemma AverageWithinUsableVolumes(prices: seq<StockPrice>, period: int, lo: int, hi: int)
    requires AvgVolumeOf(prices, period).Some?
    requires forall v :: v in UsableVolumes(Window(prices, period)) ==> lo <= v <= hi
    ensures lo <= AvgVolumeOf(prices, period).value <= hi
  {
    var vs := UsableVolumes(Window(prices, period));
    assert forall k :: 0 <= k < |vs| ==> lo <= vs[k] <= hi by {
      forall k | 0 <= k < |vs| ensures lo <= vs[k] <= hi {
        assert vs[k] in vs;
      }
    }
    SumAtLeast(vs, lo);
    SumAtMost(vs, hi);
    QuotientAtLeast(Sum(vs), |vs|, lo);
    QuotientAtMost(Sum(vs), |vs|, hi);
  }

  /** The average is at least one: only positive volumes take part. */
  lemma AverageIsPositive(prices: seq<StockPrice>, period: int)
    requires AvgVolumeOf(prices, period).Some?
    ensures AvgVolumeOf(prices, period).value >= 1
  {
    var vs := UsableVolumes(Window(prices, period));
    SumAtLeast(vs, 1);
    QuotientAtLeast(Sum(vs), |vs|, 1);
  }

  /** Rows older than the last `period` do not affect the average. */
  lemma OlderRowsIgnored(older: seq<StockPrice>, prices: seq<StockPrice>, period: int)
    requires period <= |prices|
    ensures AvgVolumeOf(older + prices, period) == AvgVolumeOf(prices, period)
  {
    if period > 0 {
      assert (older + prices)[|older + prices| - period..] == prices[|prices| - period..];
    }
  }

  /** Adding a row whose volume is missing or not positive does not change the usable volumes. */
  lemma {:induction false} UnusableRowIgnored(before: seq<StockPrice>, row: StockPrice, after: seq<StockPrice>)
    requires !Usable(row.volume)
    ensures UsableVolumes(before + [row] + after) == UsableVolumes(before + after)
    decreases |after|
  {
    if |after| == 0 {
      assert (before + [row] + after)[..|before| + 1 - 1] == before;
      assert before + after == before;
    } else {
      var last := after[|after| - 1];
      var init := after[..|after| - 1];
      assert (before + [row] + after)[..|before + [row] + after| - 1] == before + [row] + init;
      assert (before + after)[..|before + after| - 1] == before + init;
      UnusableRowIgnored(before, row, init);
    }
  }

  /**
   * calculateIndicators, for the average volume: an empty list gives an empty bundle,
   * and the average over the short moving-average period is computed only when there
   * are at least that many rows.
   */
  method CalculateIndicators(prices: seq<StockPrice>, params: IndicatorParameters) returns (bundle: IndicatorBundle)
    ensures |prices| == 0 ==> bundle == IndicatorBundle(None)
    ensures bundle.HasAvgVolume() <==>
      0 < |prices| && params.smaShortPeriod <= |prices| &&
      UsableVolumes(Window(prices, params.smaShortPeriod)) != []
    ensures bundle.HasAvgVolume() ==> bundle.avgVolume20 == AvgVolumeOf(prices, params.smaShortPeriod)
  {
    if |prices| == 0 {
      return IndicatorBundle(None);
    }
    bundle := IndicatorBundle(None);
    if |prices| >= params.smaShortPeriod {
      var avg := CalculateAvgVolume(prices, params.smaShortPeriod);
      bundle := bundle.(avgVolume20 := avg);
    }
  }
}
