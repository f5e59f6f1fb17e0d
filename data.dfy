/**
 * `get_expense_ratios` in analytics/data.py: a fixed table of fund expense
 * ratios, looked up for each requested ticker with 0.0 as the default.
 */
module Data {
  import opened Dicts

  /** The hard-coded expense-ratio table. */
  const KnownExpenseRatios: map<Ticker, real> := map["SPY" := 0.0009, "VOO" := 0.0003]

  /** `er.get(t, 0.0)` */
  function ExpenseRatioOf(t: Ticker): real
  {
    if t in KnownExpenseRatios then KnownExpenseRatios[t] else 0.0
  }

  /**
   * `{t: er.get(t, 0.0) for t in tickers}`: one entry per distinct ticker,
   * at the position of its first occurrence.  A repeated ticker assigns
   * the same value again, which leaves the dictionary as it was.
   */
  function ExpenseRatios(tickers: seq<Ticker>): (r: seq<(Ticker, real)>)
    ensures KeySet(r) == set t | t in tickers
    ensures DistinctKeys(r)
    ensures forall i :: 0 <= i < |r| ==> r[i].1 == ExpenseRatioOf(r[i].0)
    ensures forall i :: 0 <= i < |r| ==> 0.0 <= r[i].1 <= 0.0009
  {
    if |tickers| == 0 then []
    else
      var n := |tickers| - 1;
      var t := tickers[n];
      var d := ExpenseRatios(tickers[..n]);
      assert tickers == tickers[..n] + [t];
      if t in KeySet(d) then d
      else
        KeySetAppend(d, [(t, ExpenseRatioOf(t))]);
        assert KeySet([(t, ExpenseRatioOf(t))]) == {t};
        DistinctKeysAppendNew(d, t, ExpenseRatioOf(t));
        d + [(t, ExpenseRatioOf(t))]
  }

  /**
   * Looking a ticker up in the result gives the table's ratio for a
   * requested ticker and nothing for any other.
   */
  lemma ExpenseRatiosLookup(tickers: seq<Ticker>, t: Ticker)
    ensures ValueOf(ExpenseRatios(tickers), t) == if t in tickers then ExpenseRatioOf(t) else 0.0
  {
    var r := ExpenseRatios(tickers);
    if t in tickers {
      InKeySet(r, t);
      var i :| 0 <= i < |r| && r[i].0 == t;
      ValueOfEntry(r, i);
    } else {
      ValueOfAbsent(r, t);
    }
  }

  /** SPY costs 0.09% a year, VOO 0.03%, and every other ticker nothing. */
  lemma KnownRatios(t: Ticker)
    ensures ExpenseRatioOf("SPY") == 0.0009
    ensures ExpenseRatioOf("VOO") == 0.0003
    ensures t != "SPY" && t != "VOO" ==> ExpenseRatioOf(t) == 0.0
  {
  }
}
