/**
 * The arithmetic part of `performance_stats` and `calculate_individual_returns`
 * in analytics/performance.py: the cumulative growth series of a sequence of
 * periodic returns, the total return, the running-peak maximum drawdown and
 * the per-ticker total return of a price table.
 */
module PerformanceStats {
  import opened Outcomes
  import opened Dicts

  /**
   * A quotient as IEEE floating point produces it: a finite number, or a
   * non-finite one (an infinity or NaN) when the divisor is zero.
   */
  datatype ReturnValue = Finite(value: real) | NonFinite

  // ---------------------------------------------------------------------
  // Cumulative growth

  /** Π (1 + r) over all the returns: the growth of one unit of money. */
  function Growth(rets: seq<real>): real
  {
    if |rets| == 0 then 1.0 else (1.0 + rets[0]) * Growth(rets[1..])
  }

  /**
   * `(1 + port_returns).cumprod()` at position `i`: the running product,
   * each element the previous one times the next growth factor.
   */
  function CumulativeAt(rets: seq<real>, i: nat): real
    requires i < |rets|
  {
    if i == 0 then 1.0 + rets[0] else CumulativeAt(rets, i - 1) * (1.0 + rets[i])
  }

  /** The whole cumulative series. */
  function Cumulative(rets: seq<real>): (c: seq<real>)
    ensures |c| == |rets|
    ensures forall i :: 0 <= i < |rets| ==> c[i] == CumulativeAt(rets, i)
  {
    seq(|rets|, i requires 0 <= i < |rets| => CumulativeAt(rets, i))
  }

  lemma {:induction false} GrowthSnoc(s: seq<real>, x: real)
    ensures Growth(s + [x]) == Growth(s) * (1.0 + x)
  {
    if |s| == 0 {
      assert (s + [x])[1..] == [];
    } else {
      assert (s + [x])[1..] == s[1..] + [x];
      GrowthSnoc(s[1..], x);
    }
  }

  /** Element `i` of the cumulative series is Π_{j <= i} (1 + r_j). */
  lemma {:induction false} CumulativeIsProduct(rets: seq<real>, i: nat)
    requires i < |rets|
    ensures CumulativeAt(rets, i) == Growth(rets[..i + 1])
  {
    if i == 0 {
      assert rets[..1][1..] == [];
    } else {
      CumulativeIsProduct(rets, i - 1);
      assert rets[..i + 1] == rets[..i] + [rets[i]];
      GrowthSnoc(rets[..i], rets[i]);
    }
  }

  /** While every return stays above -100%, the cumulative value stays positive. */
  lemma {:induction false} CumulativePositive(rets: seq<real>, i: nat)
    requires i < |rets|
    requires forall j :: 0 <= j <= i ==> rets[j] > -1.0
    ensures CumulativeAt(rets, i) > 0.0
  {
    if i > 0 {
      CumulativePositive(rets, i - 1);
      PositiveProduct(CumulativeAt(rets, i - 1), 1.0 + rets[i]);
    }
  }

  lemma PositiveProduct(a: real, b: real)
    requires a > 0.0 && b > 0.0
    ensures a * b > 0.0
  {
  }

  // ---------------------------------------------------------------------
  // Running peak and drawdown

  function Max(a: real, b: real): real
  {
    if b > a then b else a
  }

  /** `cumulative.cummax()` at position `i`. */
  function PeakAt(c: seq<real>, i: nat): real
    requires i < |c|
  {
    if i == 0 then c[0] else Max(PeakAt(c, i - 1), c[i])
  }

  /** The running peak is the largest value seen so far, and is one of them. */
  lemma {:induction false} PeakIsRunningMax(c: seq<real>, i: nat)
    requires i < |c|
    ensures forall j :: 0 <= j <= i ==> c[j] <= PeakAt(c, i)
    ensures exists j :: 0 <= j <= i && PeakAt(c, i) == c[j]
  {
    if i > 0 {
      PeakIsRunningMax(c, i - 1);
      if c[i] <= PeakAt(c, i - 1) {
        var j :| 0 <= j <= i - 1 && PeakAt(c, i - 1) == c[j];
        assert PeakAt(c, i) == c[j];
      } else {
        assert PeakAt(c, i) == c[i];
      }
    } else {
      assert PeakAt(c, 0) == c[0];
    }
  }

  /**
   * `cumulative[i] / cummax[i] - 1`, non-finite when the peak is zero.  In a
   * cumulative series a zero peak means the value itself is zero (see
   * ZeroPeakIsZero), so the quotient is 0/0, a NaN.
   */
  function DrawdownAt(c: seq<real>, i: nat): ReturnValue
    requires i < |c|
  {
    var peak := PeakAt(c, i);
    if peak == 0.0 then NonFinite else Finite(c[i] / peak - 1.0)
  }

  /**
   * The smaller of two figures as `Series.min()` takes it: a NaN is skipped,
   * so the result is non-finite only when both figures are.
   */
  function MinValue(a: ReturnValue, b: ReturnValue): ReturnValue
  {
    if a.NonFinite? then b
    else if b.NonFinite? then a
    else if b.value < a.value then b
    else a
  }

  /** `.min()` over the first `n` drawdowns. */
  function LeastDrawdown(c: seq<real>, n: nat): ReturnValue
    requires 0 < n <= |c|
  {
    if n == 1 then DrawdownAt(c, 0) else MinValue(LeastDrawdown(c, n - 1), DrawdownAt(c, n - 1))
  }

  /** The "Max Drawdown" figure: the least drawdown over the whole series. */
  function MaxDrawdown(c: seq<real>): ReturnValue
    requires |c| > 0
  {
    LeastDrawdown(c, |c|)
  }

  /** The arithmetic figures of `performance_stats`. */
  datatype Stats = Stats(totalReturn: real, maxDrawdown: ReturnValue, cumulative: seq<real>)

  /**
   * `performance_stats(port_returns)` without the annualised return,
   * volatility and Sharpe ratio.  An empty series has no last cumulative
   * value (pandas raises an IndexError): None.
   */
  function PerformanceStats(rets: seq<real>): (r: Option<Stats>)
    ensures r.None? <==> |rets| == 0
    ensures r.Some? ==> r.value.cumulative == Cumulative(rets)
  {
    if |rets| == 0 then None
    else
      var c := Cumulative(rets);
      Some(Stats(CumulativeAt(rets, |rets| - 1) - 1.0, MaxDrawdown(c), c))
  }

  // ---------------------------------------------------------------------
  // Properties of performance_stats

  /** The total return is the compounded growth of all the returns, less one. */
  lemma TotalReturnIsGrowth(rets: seq<real>)
    requires |rets| > 0
    ensures PerformanceStats(rets).value.totalReturn == Growth(rets) - 1.0
  {
    var last := |rets| - 1;
    CumulativeIsProduct(rets, last);
    assert rets[..last + 1] == rets;
  }

  /**
   * The least drawdown skips the undefined ones: it is undefined exactly
   * when every drawdown is, and otherwise it is no larger than any defined
   * drawdown and equal to one of them.
   */
  lemma {:induction false} LeastDrawdownIsMin(c: seq<real>, n: nat)
    requires 0 < n <= |c|
    ensures LeastDrawdown(c, n).NonFinite? <==> forall i :: 0 <= i < n ==> DrawdownAt(c, i).NonFinite?
    ensures LeastDrawdown(c, n).Finite? ==>
      forall i :: 0 <= i < n && DrawdownAt(c, i).Finite? ==> LeastDrawdown(c, n).value <= DrawdownAt(c, i).value
    ensures LeastDrawdown(c, n).Finite? ==> exists i :: 0 <= i < n && LeastDrawdown(c, n) == DrawdownAt(c, i)
  {
    if n > 1 {
      LeastDrawdownIsMin(c, n - 1);
    }
  }

  /** Once a cumulative value is zero every later one is zero too. */
  lemma {:induction false} ZeroStaysZero(rets: seq<real>, j: nat, i: nat)
    requires j <= i < |rets| && CumulativeAt(rets, j) == 0.0
    ensures CumulativeAt(rets, i) == 0.0
  {
    if i > j {
      ZeroStaysZero(rets, j, i - 1);
    }
  }

  /**
   * In a cumulative series a running peak of zero only occurs at a value of
   * zero, so every undefined drawdown is 0/0 (a NaN, which `min()` skips)
   * and never an infinity.
   */
  lemma ZeroPeakIsZero(rets: seq<real>, i: nat)
    requires i < |rets| && PeakAt(Cumulative(rets), i) == 0.0
    ensures Cumulative(rets)[i] == 0.0
  {
    var c := Cumulative(rets);
    PeakIsRunningMax(c, i);
    var j :| 0 <= j <= i && PeakAt(c, i) == c[j];
    ZeroStaysZero(rets, j, i);
  }

  /**
   * The maximum drawdown is undefined exactly when the first return is -100%:
   * then every value, and so every peak, is zero; otherwise the first
   * drawdown is defined and the minimum skips any later undefined one.
   */
  lemma MaxDrawdownUndefined(rets: seq<real>)
    requires |rets| > 0
    ensures PerformanceStats(rets).value.maxDrawdown.NonFinite? <==> rets[0] == -1.0
  {
    var c := Cumulative(rets);
    LeastDrawdownIsMin(c, |c|);
    assert PerformanceStats(rets).value.maxDrawdown == LeastDrawdown(c, |c|);
    assert PeakAt(c, 0) == c[0] == 1.0 + rets[0];
    if rets[0] == -1.0 {
      forall i | 0 <= i < |c| ensures DrawdownAt(c, i).NonFinite? {
        PeakIsRunningMax(c, i);
        var j :| 0 <= j <= i && PeakAt(c, i) == c[j];
        ZeroStaysZero(rets, 0, j);
      }
    } else {
      assert DrawdownAt(c, 0).Finite?;
    }
  }

  /**
   * Returns of -200% and then -100% give the cumulative values -1 and 0: the
   * first drawdown is 0 and the second 0/0, which the minimum skips.
   */
  lemma UndefinedDrawdownSkipped()
    ensures PerformanceStats([-2.0, -1.0]).value.maxDrawdown == Finite(0.0)
  {
    var rets := [-2.0, -1.0];
    var c := Cumulative(rets);
    assert c[0] == -1.0 && c[1] == 0.0;
    assert PeakAt(c, 0) == -1.0 && PeakAt(c, 1) == 0.0;
    assert DrawdownAt(c, 0) == Finite(0.0);
    assert DrawdownAt(c, 1) == NonFinite;
    assert LeastDrawdown(c, 2) == MinValue(DrawdownAt(c, 0), DrawdownAt(c, 1));
  }

  /** Every entry of `c` is positive. */
  ghost predicate AllPositive(c: seq<real>)
  {
    forall i :: 0 <= i < |c| ==> c[i] > 0.0
  }

  lemma CumulativeAllPositive(rets: seq<real>)
    requires forall j :: 0 <= j < |rets| ==> rets[j] > -1.0
    ensures AllPositive(Cumulative(rets))
  {
    forall i | 0 <= i < |rets| ensures CumulativeAt(rets, i) > 0.0 {
      CumulativePositive(rets, i);
    }
  }

  /** 0 < x <= p gives -1 < x/p - 1 <= 0. */
  lemma FractionOfPeak(x: real, p: real)
    requires 0.0 < x <= p
    ensures -1.0 < x / p - 1.0 <= 0.0
  {
    var q := x / p;
    assert q * p == x;
    assert (q - 1.0) * p == x - p;
    SignOfFactor(q, p);
    SignOfFactor(q - 1.0, p);
  }

  /** A product with a positive factor has the sign of the other factor. */
  lemma SignOfFactor(a: real, p: real)
    requires p > 0.0
    ensures a * p > 0.0 ==> a > 0.0
    ensures a * p <= 0.0 ==> a <= 0.0
  {
  }

  /** Dividing a positive amount by a larger positive divisor gives less. */
  lemma DivideByLarger(x: real, q: real, p: real)
    requires x > 0.0 && 0.0 < q <= p
    ensures x / p <= x / q
  {
    assert x / p * p == x;
    assert x / q * q == x;
  }

  /** Over positive values every drawdown is defined, as the value over its positive peak, less one. */
  lemma PositiveDrawdown(c: seq<real>, i: nat)
    requires i < |c| && AllPositive(c)
    ensures 0.0 < c[i] <= PeakAt(c, i)
    ensures DrawdownAt(c, i) == Finite(c[i] / PeakAt(c, i) - 1.0)
  {
    PeakIsRunningMax(c, i);
  }

  /**
   * With every return above -100%, the maximum drawdown lies in (-1, 0]:
   * no value falls below zero and none exceeds its running peak.
   */
  lemma MaxDrawdownBounds(rets: seq<real>)
    requires |rets| > 0
    requires forall j :: 0 <= j < |rets| ==> rets[j] > -1.0
    ensures PerformanceStats(rets).value.maxDrawdown.Finite?
    ensures -1.0 < PerformanceStats(rets).value.maxDrawdown.value <= 0.0
  {
    var c := Cumulative(rets);
    CumulativeAllPositive(rets);
    MaxDrawdownUndefined(rets);
    LeastDrawdownIsMin(c, |c|);
    var i :| 0 <= i < |c| && LeastDrawdown(c, |c|) == DrawdownAt(c, i);
    PositiveDrawdown(c, i);
    FractionOfPeak(c[i], PeakAt(c, i));
  }

  /**
   * With every return above -100%, the maximum drawdown is the deepest
   * decline between two points of the cumulative series: it is no larger
   * than `c[i] / c[j] - 1` for any `j <= i`, and equal to one such decline.
   */
  lemma MaxDrawdownIsDeepestDecline(rets: seq<real>)
    requires |rets| > 0
    requires forall j :: 0 <= j < |rets| ==> rets[j] > -1.0
    ensures AllPositive(Cumulative(rets))
    ensures PerformanceStats(rets).value.maxDrawdown.Finite?
    ensures var c := Cumulative(rets);
      forall j, i :: 0 <= j <= i < |c| ==> PerformanceStats(rets).value.maxDrawdown.value <= c[i] / c[j] - 1.0
    ensures var c := Cumulative(rets);
      exists j, i :: 0 <= j <= i < |c| && PerformanceStats(rets).value.maxDrawdown.value == c[i] / c[j] - 1.0
  {
    var c := Cumulative(rets);
    var m := PerformanceStats(rets).value.maxDrawdown;
    CumulativeAllPositive(rets);
    MaxDrawdownUndefined(rets);
    LeastDrawdownIsMin(c, |c|);
    assert m == LeastDrawdown(c, |c|);
    forall j, i | 0 <= j <= i < |c| ensures m.value <= c[i] / c[j] - 1.0 {
      PositiveDrawdown(c, i);
      PeakIsRunningMax(c, i);
      DivideByLarger(c[i], c[j], PeakAt(c, i));
    }
    var i :| 0 <= i < |c| && m == DrawdownAt(c, i);
    PositiveDrawdown(c, i);
    PeakIsRunningMax(c, i);
    var j :| 0 <= j <= i && PeakAt(c, i) == c[j];
    assert m.value == c[i] / c[j] - 1.0;
  }

  // ---------------------------------------------------------------------
  // Individual rets

  /** `(end_price - start_price) / start_price` */
  function SimpleReturn(startPrice: real, endPrice: real): (r: ReturnValue)
    ensures r.NonFinite? <==> startPrice == 0.0
    ensures r.Finite? ==> endPrice == startPrice * (1.0 + r.value)
  {
    if startPrice == 0.0 then NonFinite else Finite((endPrice - startPrice) / startPrice)
  }

  /** A price that grows by `v` from a non-zero start has simple return `v`. */
  lemma SimpleReturnOfGrowth(startPrice: real, v: real)
    requires startPrice != 0.0
    ensures SimpleReturn(startPrice, startPrice * (1.0 + v)) == Finite(v)
  {
    assert startPrice * (1.0 + v) - startPrice == startPrice * v;
  }

  /** A price column: the ticker and its prices in date order. */
  type PriceColumn = (Ticker, seq<real>)

  /** No two columns share a label (a column label selects one column). */
  predicate DistinctLabels(prices: seq<PriceColumn>)
  {
    forall i, j :: 0 <= i < j < |prices| ==> prices[i].0 != prices[j].0
  }

  /** The total return of one column, from its first and last prices. */
  function ColumnReturn(column: seq<real>): ReturnValue
    requires |column| > 0
  {
    SimpleReturn(column[0], column[|column| - 1])
  }

  /**
   * `calculate_individual_returns(prices)`: one entry per column, in column
   * order, holding the column's total return.  An empty column has no first
   * price (pandas raises an IndexError): None.
   */
  method CalculateIndividualReturns(prices: seq<PriceColumn>) returns (r: Option<seq<(Ticker, ReturnValue)>>)
    requires DistinctLabels(prices)
    ensures r.None? <==> exists i :: 0 <= i < |prices| && |prices[i].1| == 0
    ensures r.Some? ==> |r.value| == |prices|
    ensures r.Some? ==> forall i :: 0 <= i < |prices| ==>
      |prices[i].1| > 0 && r.value[i] == (prices[i].0, ColumnReturn(prices[i].1))
  {
    var individualReturns: seq<(Ticker, ReturnValue)> := [];
    var k := 0;
    while k < |prices|
      invariant 0 <= k <= |prices|
      invariant |individualReturns| == k
      invariant forall i :: 0 <= i < k ==>
        |prices[i].1| > 0 && individualReturns[i] == (prices[i].0, ColumnReturn(prices[i].1))
    {
      var (ticker, column) := prices[k];
      if |column| == 0 {
        return None;
      }
      var startPrice := column[0];
      var endPrice := column[|column| - 1];
      var totalReturn := SimpleReturn(startPrice, endPrice);
      individualReturns := individualReturns + [(ticker, totalReturn)];
      k := k + 1;
    }
    r := Some(individualReturns);
  }
}
