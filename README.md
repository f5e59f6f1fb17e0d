# Portfolio analysis core in Dafny

A model of the computational core of the Portfolio-Analysis service. The
service compares an investor's holdings with a model portfolio, projects both
ten years ahead with fees, taxes and cash flows, and imports holdings from
E*TRADE. The model covers these parts:

- **Projections** (`projection.dfy`, analytics/performance.py). Three
  projections share one weighted annual return:
  - plain compounding;
  - growth followed by a fee;
  - the tax-aware year loop. Each year it adds the cash flow, grows the
    balance, takes tax by account type (Brokerage, Roth IRA, Traditional
    IRA) and then charges the fee.

  Each loop is a method proved against a specification function. The
  lemmas state the properties of that function: year chaining, the step
  identities of each row, value conservation, the closed form without cash
  flow, and agreement with the fee-only projection.
- **Performance statistics** (`performance_stats.dfy`):
  - the cumulative growth series and the total return;
  - the running-peak maximum drawdown, proved to be the deepest decline
    between two points of the series when every return is above -100%;
  - the per-ticker total return of a price table.
- **Portfolio router** (`portfolio_router.dfy`,
  backend/api/routers/portfolio.py). It models:
  - merging several accounts' holdings and asset-class overrides;
  - the value-weighted advisory fee;
  - scaling a model's weights to dollars;
  - folding the per-account projections into one aggregate projection;
  - the fee analysis;
  - both analysis handlers, with their 400 and 500 answers.
- **E*TRADE router** (`etrade_router.dfy`). It models the credential and
  account checks of the holdings endpoint, and the loop that merges
  positions by symbol. That loop keeps a dictionary from symbol to slot; it
  is proved to keep the first-occurrence order, sum each symbol's values,
  keep the first security type and preserve the total.
- **Expense ratios** (`data.dfy`, analytics/data.py): the hard-coded table
  and its per-ticker lookup with a 0.0 default.
- **Support modules**. `dicts.dfy` holds insertion-ordered dictionaries as
  sequences of entries. `outcomes.dfy` holds `Option`, and `Result` with
  `HttpError`.

Money is an exact `real`. A Python dictionary whose order matters is a
sequence of (key, value) entries.

Some collaborators are passed in as parameters, because their code is not
part of this model:
- the `Portfolio` class, as an `Appraiser` from holdings and overrides to an
  allocation and a weighted expense ratio;
- `find_best_matching_model`, as a `Matcher`;
- the growth-rate table and `model_fee`;
- the E*TRADE client's answer, as a `Fetch`.

The model follows the code as written; in particular:
- **Brokerage tax** is `growth * tax_rate` with no floor at zero, so a year
  that loses money carries a negative tax (`BrokerageLossGivesNegativeTax`).
- **The Traditional IRA deferred liability** is recomputed each year as
  `ending_value * tax_rate`. It is not accumulated from growth, so at a
  positive rate it falls whenever the balance falls (`DeferredLiabilityTracksBalance`).
- **The single analysis** projects the model on the request's own cash flow
  and account type, although the comment beside the call says the model is
  projected without a cash flow (`SingleModelProjection`).
- **The maximum drawdown** skips an undefined (0/0) drawdown, as pandas'
  `min()` skips NaN, and is undefined only when every drawdown is
  (`MaxDrawdownUndefined`, `UndefinedDrawdownSkipped`).

## Model

| member | source | states |
|---|---|---|
| Data.ExpenseRatios | analytics/data.py:18-24 | one entry per distinct requested ticker; keys are exactly the requested tickers; each value is the table's ratio, between 0 and 0.0009 |
| Data.ExpenseRatiosLookup | analytics/data.py:24 | looking a ticker up gives the table's ratio if it was requested, and 0 otherwise |
| Data.KnownRatios | analytics/data.py:20-23 | SPY costs 0.0009, VOO 0.0003, every other ticker 0.0 |
| PerformanceStats.CumulativeIsProduct | analytics/performance.py:38 | element i of the cumulative series equals Π_{j<=i}(1 + r_j) |
| PerformanceStats.CumulativePositive | analytics/performance.py:38 | while every return stays above -100% the cumulative value stays positive |
| PerformanceStats.PeakIsRunningMax | analytics/performance.py:43 | the running peak bounds every earlier value and is one of them |
| PerformanceStats.PerformanceStats | analytics/performance.py:37-51 | an empty series has no statistics (IndexError); otherwise the cumulative series is returned alongside them |
| PerformanceStats.TotalReturnIsGrowth | analytics/performance.py:39 | the total return is the compounded growth of all returns minus 1 |
| PerformanceStats.LeastDrawdownIsMin | analytics/performance.py:43 | the NaN-skipping minimum: undefined exactly when every drawdown is; otherwise no larger than any defined drawdown and equal to one of them |
| PerformanceStats.ZeroPeakIsZero | analytics/performance.py:43 | in a cumulative series a zero running peak occurs only at a zero value, so an undefined drawdown is always 0/0 (NaN), never an infinity |
| PerformanceStats.MaxDrawdownUndefined | analytics/performance.py:43 | the maximum drawdown is undefined exactly when the first return is -100% |
| PerformanceStats.UndefinedDrawdownSkipped | analytics/performance.py:43 | returns -200%, -100%: drawdowns 0 and 0/0, and the maximum drawdown is 0 |
| PerformanceStats.MaxDrawdownBounds | analytics/performance.py:43 | with every return above -100% the maximum drawdown lies in (-1, 0] |
| PerformanceStats.MaxDrawdownIsDeepestDecline | analytics/performance.py:43 | when every return is above -100%, the maximum drawdown is the least c[i]/c[j] - 1 over all j <= i, and is attained |
| PerformanceStats.SimpleReturn | analytics/performance.py:31 | non-finite exactly when the start price is zero; otherwise end = start * (1 + return) |
| PerformanceStats.SimpleReturnOfGrowth | analytics/performance.py:31 | a price grown by v from a non-zero start has simple return v (inverse of SimpleReturn) |
| PerformanceStats.CalculateIndividualReturns | analytics/performance.py:24-34 | one entry per column in column order with that column's total return; None exactly when some column is empty |
| Projection.WeightedReturnIgnoresOtherClasses | analytics/performance.py:68-71 | the weighted return depends only on the weights of the classes in the growth-rate table, a missing class weighing 0 |
| Projection.WeightedReturnBounds | analytics/performance.py:188-191 | with non-negative weights the weighted return lies between the lowest and highest rate times the covered weight |
| Projection.ProjectPortfolioReturns | analytics/performance.py:55-94 | year k is numbered k, worth (1+r)^k, with cumulative return value - 1; the final value is (1+r)^years and the total return agrees with it |
| Projection.GrowThenCharge | analytics/performance.py:123-126 | one year of growth then a fee on the grown value scales the value by (1+r)(1-fee) |
| Projection.FeeYearIsFeeRow | analytics/performance.py:122-128 | a year starting at NetFactor^k is row k of the fee projection and ends at NetFactor^(k+1) |
| Projection.ProjectFeeYear | analytics/performance.py:122-126 | one fee-loop pass: ending value = start + growth - fees, and equals start × (1+r)(1-fee) |
| Projection.ProjectPortfolioWithFees | analytics/performance.py:97-145 | every row scales by (1+r)(1-fee); final value NetFactor^years; total fees are the sum of the yearly fees; final value = 1 + all growth - all fees |
| Projection.ProjectYear | analytics/performance.py:207-254 | one year of the tax-aware loop; the row obeys the step-order identities: growth on start + cash flow, tax by account type, fee on the after-tax value, ending = (A(1+r) - tax)(1 - fee), deferred liability by account type |
| Projection.ProjectPortfolioWithTaxes | analytics/performance.py:148-265 | the year loop returns exactly TaxProjectionOf of its settings: rows, final value, running totals and last deferred liability |
| Projection.TaxProjectionChaining | analytics/performance.py:199-237 | years rows numbered 1..years; row 1 starts at the initial value, each later row at the previous ending value; the final value is the last ending value |
| Projection.TaxRowIdentities | analytics/performance.py:210-241 | every row obeys growth = A*r, tax by account type, fee on the after-tax value, ending = (A(1+r) - tax)(1 - fee), deferred liability by account type |
| Projection.UntaxedAccountsPayNoTax | analytics/performance.py:222-227 | Roth IRA, Traditional IRA and zero-rate Brokerage rows carry no tax and the total tax is 0 |
| Projection.BrokerageLossGivesNegativeTax | analytics/performance.py:222-224 | a Brokerage year with negative growth and a positive rate has a negative tax |
| Projection.TotalCashFlows | analytics/performance.py:210-211 | the cash flows total years × the annual cash flow |
| Projection.ValueConservation | analytics/performance.py:206-237 | final value = initial value + cash flows + growth - taxes - fees |
| Projection.NoCashFlowClosedForm | analytics/performance.py:206-237 | without cash flow the value after n years is the initial value times the one-year factor to the n |
| Projection.ZeroFrictionCompounding | analytics/performance.py:218-234 | with no fee, tax or cash flow every year ends at its start times (1+r) |
| Projection.ZeroFrictionFinalValue | analytics/performance.py:206-237 | with no fee, tax or cash flow the final value is initial × (1+r)^years |
| Projection.UntaxedProjectionMatchesFeeProjection | analytics/performance.py:206-237 | from $1 with no cash flow and no tax, year k+1 ends at ((1+r)(1-fee))^(k+1), as in the fee-only projection |
| Projection.DeferredLiabilityTracksBalance | analytics/performance.py:241 | for at least one year, the returned deferred liability is final value × tax rate in a Traditional IRA and 0 otherwise |
| Projection.FirstYearBrokerageExample | analytics/performance.py:206-237 | $100,000 at 7%, 1% fee, 20% tax: tax 1400, fee 1056, ending 104544 |
| Dicts.AddTo | backend/api/routers/portfolio.py:215 | adding an amount under a key unites the key sets, adds it to that key only, adds it to the total and keeps keys distinct |
| Dicts.AddAllFacts | backend/api/routers/portfolio.py:214-215 | adding all items: key sets unite, per-key values add, totals add, distinct keys stay distinct |
| PortfolioRouter.CombinedHoldingsFacts | backend/api/routers/portfolio.py:213-215 | the merged holdings have every account's tickers, each ticker's amount summed across accounts, the sum of the account totals, distinct keys |
| PortfolioRouter.CombinedHoldingsEmpty | backend/api/routers/portfolio.py:213-220 | the merged holdings are empty exactly when every account's holdings are |
| PortfolioRouter.MergedOverridesKeys | backend/api/routers/portfolio.py:216-217 | a ticker has a merged override exactly when some account overrides it |
| PortfolioRouter.MergedOverridesLastWins | backend/api/routers/portfolio.py:216-217 | the last account overriding a ticker decides its class |
| PortfolioRouter.CombinePortfolios | backend/api/routers/portfolio.py:210-217 | the merge loop yields the merged holdings and merged overrides |
| PortfolioRouter.SharesOfCommonFee | backend/api/routers/portfolio.py:224-226 | when all accounts charge f, the fee shares sum to f × positive totals / total value |
| PortfolioRouter.CommonFeeIsWeightedFee | backend/api/routers/portfolio.py:223-227 | with non-negative amounts, one common fee f and a positive total value, the weighted fee is f |
| PortfolioRouter.NoValueNoFee | backend/api/routers/portfolio.py:227 | a total value that is not positive gives a weighted fee of 0 |
| PortfolioRouter.ModelDollarsKeys | backend/api/routers/portfolio.py:243 | the model's dollars hold exactly the model's tickers |
| PortfolioRouter.ModelDollarsValue | backend/api/routers/portfolio.py:243 | each ticker gets total value × its weight |
| PortfolioRouter.ModelDollarsTotal | backend/api/routers/portfolio.py:243 | the dollars add up to total value × sum of weights |
| PortfolioRouter.ModelDollarsSumToTotal | backend/api/routers/portfolio.py:66-67 | weights summing to 1 give dollars summing to the total value |
| PortfolioRouter.SavingsFollowFeeRates | backend/api/routers/portfolio.py:360-367 | on equal positive values, savings are positive iff the current fee rate is higher and zero iff the rates are equal |
| PortfolioRouter.SummarySavings | backend/api/routers/portfolio.py:132-143 | two summaries of the same positive value: savings positive iff current expense ratio + advisory fee exceed the model's |
| PortfolioRouter.AccountProjectionsEmpty | backend/api/routers/portfolio.py:279-281 | there is no account projection exactly when no account holds anything |
| PortfolioRouter.ProjectAccount | backend/api/routers/portfolio.py:283-302 | an account's projection covers 10 years, starts at the account's total holdings, keeps its account type, and its cash flows total 10 × the account's own |
| PortfolioRouter.AggregateOf | backend/api/routers/portfolio.py:277-343 | the aggregate is None exactly when no account was projected |
| PortfolioRouter.AggregateTotals | backend/api/routers/portfolio.py:306-333 | the aggregate totals are the sums of the accounts' totals; the weighted return is the first account's |
| PortfolioRouter.AggregateRows | backend/api/routers/portfolio.py:316-343 | the aggregate has the first account's rows and years; each money column of row i sums the accounts' row i (0 when absent) |
| PortfolioRouter.InitialAggregate | backend/api/routers/portfolio.py:304-326 | the first projection's totals and copied rows |
| PortfolioRouter.AddIntoAggregate | backend/api/routers/portfolio.py:327-343 | a later projection's totals added and its rows added index by index, ignoring extra rows |
| PortfolioRouter.AggregateAccountProjections | backend/api/routers/portfolio.py:277-343 | the loop yields the aggregate of the projections of the non-empty accounts |
| PortfolioRouter.AnalyzePortfolio | backend/api/routers/portfolio.py:46-183 | 400 iff holdings are empty; 500 when no model matches; otherwise the comparison with the chosen model |
| PortfolioRouter.SingleModelProjection | backend/api/routers/portfolio.py:116-126 | the model is projected on the request's account type and cash flows totalling 10 × the request's |
| PortfolioRouter.SingleFeeAnalysis | backend/api/routers/portfolio.py:132-146 | current value is the holdings' total; each annual fee is (expense ratio + advisory fee) × value; ten-year fees come from the projections; model value = total × sum of weights |
| PortfolioRouter.SingleSavingsFollowFeeRates | backend/api/routers/portfolio.py:132-143 | with weights summing to 1 and positive value, savings are positive iff the current fee rate exceeds the model's |
| PortfolioRouter.AnalyzeAggregateAsWritten | backend/api/routers/portfolio.py:201-407 | as written, 400 is answered iff there are no portfolios |
| PortfolioRouter.AnalyzeAggregate | backend/api/routers/portfolio.py:205-244 | 400 iff no portfolios or no holdings in any; 500 when no model matches; otherwise the aggregate comparison |
| PortfolioRouter.EmptyAccountsAnswer500AsWritten | backend/api/routers/portfolio.py:219-220 | accounts that all hold nothing get a 500 "Aggregate analysis failed: 400: No holdings found in any portfolio" as written, and the 400 "No holdings found in any portfolio" when corrected |
| PortfolioRouter.AsWrittenAgreesOtherwise | backend/api/routers/portfolio.py:205-220 | on every other request the as-written and corrected handlers give the same answer |
| PortfolioRouter.AggregateModelProjection | backend/api/routers/portfolio.py:345-358 | the aggregate model is projected as Brokerage on cash flows totalling 10 × the sum of the accounts' |
| PortfolioRouter.AggregateFeeAnalysis | backend/api/routers/portfolio.py:360-370 | combined value, value-weighted fee, annual fees from rate × value, current ten-year fees = sum of account projections' fees; the aggregate exists iff some account holds something |
| PortfolioRouter.AggregateModelValue | backend/api/routers/portfolio.py:243 | the aggregate model holds combined value × sum of weights |
| PortfolioRouter.AggregateSavingsFollowFeeRates | backend/api/routers/portfolio.py:360-367 | with weights summing to 1 and positive combined value, savings are positive iff merged expense ratio + weighted fee exceed the model's |
| Outcomes.WrapFailure | backend/api/routers/portfolio.py:182-183 | success passes through unchanged; every failure becomes a 500 whose detail is the prefix followed by the failure's `str(e)`, "code: detail" |
| EtradeRouter.IndexOf | backend/api/routers/etrade.py:161 | the first entry of the symbol, or the length when there is none |
| EtradeRouter.IndexOfFinds | backend/api/routers/etrade.py:161 | the membership test succeeds exactly when the symbol has an entry |
| EtradeRouter.AbsorbSymbols | backend/api/routers/etrade.py:161-168 | a known symbol keeps the symbol list; a new symbol is appended as the position itself |
| EtradeRouter.AbsorbEntries | backend/api/routers/etrade.py:161-168 | only the entry of the position's symbol gains its value; earlier security types are kept |
| EtradeRouter.AbsorbTotal | backend/api/routers/etrade.py:161-168 | absorbing a position adds its market value to the total |
| EtradeRouter.AbsorbExisting | backend/api/routers/etrade.py:161-162 | a known symbol's entry is updated in place with the added value |
| EtradeRouter.AbsorbNew | backend/api/routers/etrade.py:163-168 | a new symbol's position is appended |
| EtradeRouter.AggregatedOrder | backend/api/routers/etrade.py:156-171 | the merged list's symbols are the positions' symbols in first-occurrence order |
| EtradeRouter.AggregatedSymbols | backend/api/routers/etrade.py:156-171 | one entry per distinct symbol, and exactly the positions' symbols |
| EtradeRouter.AggregatedValues | backend/api/routers/etrade.py:159-162 | each entry's market value is the sum over that symbol's positions |
| EtradeRouter.AggregatedTypes | backend/api/routers/etrade.py:164-168 | each entry keeps the security type of its symbol's first position |
| EtradeRouter.AggregatedKeepsMarketValue | backend/api/routers/etrade.py:156-171 | merging preserves the total market value |
| EtradeRouter.AggregateBySymbol | backend/api/routers/etrade.py:156-171 | the dictionary loop yields exactly the merged list |
| EtradeRouter.GetEtradeHoldings | backend/api/routers/etrade.py:131-175 | 400 iff credentials incomplete or no account ids, in that order with their exact messages; a client failure becomes a 500; otherwise the merged holdings |

## Left out

- `calculate_portfolio_returns`, the annualized return, the volatility and the Sharpe ratio of `performance_stats`: they need fractional powers, square roots and standard deviations of floating-point series. The Sharpe ratio's 0.02 risk-free rate is not modelled either.
- `get_price_data` and every market-data download (yfinance), and the historical-performance analysis with its `serialize_historical` and dates: these are I/O and clock reads.
- The `Portfolio` class, `find_best_matching_model`, `growth_rates` and `model_fee` are not part of this model. They are parameters (`Appraiser`, `Matcher`, a growth-rate table, a fee). The model assumes a `Portfolio`'s total value is the sum of its holdings, its advisory fee is the one it was given, and absent overrides act as none.
- The responses' `weights` and detailed holdings, and the ticker and model-listing routers, `validate_holdings` and the E*TRADE account-listing and OAuth endpoints: they only relay collaborators' results.
- The E*TRADE client, OAuth and the `ETRADE_SANDBOX` environment switch: the fetched positions, or the client's failure message, are a parameter (`Fetch`). Environment variables are a `Credentials` value.
- Floating point: all money is exact `real`, so rounding is not modelled. An IEEE infinity or NaN from dividing by zero is one `NonFinite` value.
- `str(e)` of an exception that is not an `HTTPException` is not modelled; it is the `message` of a failure.
- PerformanceStats.CalculateIndividualReturns: requires distinct column labels, because a duplicated pandas column label selects several columns. That case is not modelled.
- A `KeyError` from a position without a `symbol`, `market_value` or `security_type` key is not modelled: a `Holding` always has all three.
- PortfolioRouter.AnalyzePortfolio: assumes the `Portfolio` class, the model matcher and the historical-performance analysis never raise. In the code any exception they raise inside the `try` block becomes a 500 "Analysis failed: …", which the model does not produce.
- PortfolioRouter.AnalyzeAggregate: makes the same assumption about the `Portfolio` class, the model matcher and the historical-performance analysis. In the code their exceptions become a 500 "Aggregate analysis failed: …".
- Projection.ProjectPortfolioReturns: `years` is a natural number. For a negative `years` the code returns an empty table and a final value of 1.0, but a total return of (1+r)^years - 1, which does not agree with the final value. That case is not modelled.
- Account types are the three values of the request's `Literal`. Any other string, which `project_portfolio_with_taxes` would treat like a Roth IRA, cannot occur at the routers.
- PortfolioRouter.AnalyzeAggregateAsWritten: its contract states only its 400 case; the rest is stated by relating it to the corrected handler (AsWrittenAgreesOtherwise, EmptyAccountsAnswer500AsWritten).

## Findings

| source | as written | input that shows it | evidently intended | confidence | as-written member | corrected member |
|---|---|---|---|---|---|---|
| backend/api/routers/portfolio.py:219-220 | "No holdings found in any portfolio" is raised as a 400 inside the `try` block, and the catch-all at lines 406-407 turns it into a 500 "Aggregate analysis failed: 400: No holdings found in any portfolio" | one portfolio whose holdings are empty | a 400 "No holdings found in any portfolio" | not executed | PortfolioRouter.EmptyAccountsAnswer500AsWritten | PortfolioRouter.AnalyzeAggregate |
