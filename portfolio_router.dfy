/**
 * The arithmetic of backend/api/routers/portfolio.py: merging several
 * accounts into one portfolio, the value-weighted advisory fee, scaling a
 * model's weights to dollars, adding up the per-account projections, the
 * fee analysis, and the two analysis handlers with their rejections.
 */
module PortfolioRouter {
  import opened Outcomes
  import opened Dicts
  import opened Projection

  /** One account of an aggregate request (`SinglePortfolioData`). */
  datatype SinglePortfolioData = SinglePortfolioData(
    holdings: seq<(Ticker, real)>,
    advisoryFee: real,
    assetClassOverrides: Option<map<Ticker, string>>,
    accountType: AccountType,
    annualCashFlow: real)

  /** The overrides an account hands on: none when absent. */
  function OverridesOf(p: SinglePortfolioData): map<Ticker, string>
  {
    if p.assetClassOverrides.Some? then p.assetClassOverrides.value else map[]
  }

  // ---------------------------------------------------------------------
  // Merging the accounts

  /** The tickers held in any of the accounts. */
  function HoldingsKeys(ps: seq<SinglePortfolioData>): set<Ticker>
  {
    if |ps| == 0 then {} else HoldingsKeys(ps[..|ps| - 1]) + KeySet(ps[|ps| - 1].holdings)
  }

  /** The amount of `t` held across all the accounts. */
  function AmountAcross(ps: seq<SinglePortfolioData>, t: Ticker): real
  {
    if |ps| == 0 then 0.0 else AmountAcross(ps[..|ps| - 1], t) + ValueOf(ps[|ps| - 1].holdings, t)
  }

  /** The sum of the accounts' totals. */
  function TotalAcross(ps: seq<SinglePortfolioData>): real
  {
    if |ps| == 0 then 0.0 else TotalAcross(ps[..|ps| - 1]) + Total(ps[|ps| - 1].holdings)
  }

  /** `combined_holdings` after the merge loop has seen every account of `ps`. */
  function CombinedHoldingsOf(ps: seq<SinglePortfolioData>): seq<(Ticker, real)>
  {
    if |ps| == 0 then [] else AddAll(CombinedHoldingsOf(ps[..|ps| - 1]), ps[|ps| - 1].holdings)
  }

  /** `combined_overrides` after the merge loop: `dict.update` is a right-biased union. */
  function MergedOverrides(ps: seq<SinglePortfolioData>): map<Ticker, string>
  {
    if |ps| == 0 then map[]
    else
      var prev := MergedOverrides(ps[..|ps| - 1]);
      var o := ps[|ps| - 1].assetClassOverrides;
      if o.Some? && |o.value| > 0 then prev + o.value else prev
  }

  /**
   * The merged holdings hold every ticker of every account, the sum of its
   * amounts across the accounts, and the sum of all the account totals.
   */
  lemma {:induction false} CombinedHoldingsFacts(ps: seq<SinglePortfolioData>)
    ensures KeySet(CombinedHoldingsOf(ps)) == HoldingsKeys(ps)
    ensures forall t :: ValueOf(CombinedHoldingsOf(ps), t) == AmountAcross(ps, t)
    ensures Total(CombinedHoldingsOf(ps)) == TotalAcross(ps)
    ensures DistinctKeys(CombinedHoldingsOf(ps))
  {
    if |ps| > 0 {
      var prefix := ps[..|ps| - 1];
      CombinedHoldingsFacts(prefix);
      AddAllFacts(CombinedHoldingsOf(prefix), ps[|ps| - 1].holdings);
    }
  }

  /** The merged holdings are empty exactly when every account's holdings are. */
  lemma {:induction false} CombinedHoldingsEmpty(ps: seq<SinglePortfolioData>)
    ensures |CombinedHoldingsOf(ps)| == 0 <==> forall k :: 0 <= k < |ps| ==> |ps[k].holdings| == 0
  {
    CombinedHoldingsFacts(ps);
    KeysEmpty(CombinedHoldingsOf(ps));
    HoldingsKeysEmpty(ps);
  }

  lemma KeysEmpty(d: seq<(Ticker, real)>)
    ensures |d| == 0 <==> KeySet(d) == {}
  {
    if |d| > 0 {
      assert d[0].0 in KeySet(d);
    }
  }

  lemma {:induction false} HoldingsKeysEmpty(ps: seq<SinglePortfolioData>)
    ensures HoldingsKeys(ps) == {} <==> forall k :: 0 <= k < |ps| ==> |ps[k].holdings| == 0
  {
    if |ps| > 0 {
      var prefix := ps[..|ps| - 1];
      HoldingsKeysEmpty(prefix);
      KeysEmpty(ps[|ps| - 1].holdings);
      assert forall k :: 0 <= k < |prefix| ==> prefix[k] == ps[k];
    }
  }

  /** A ticker has an override after the merge exactly when some account overrides it. */
  lemma {:induction false} MergedOverridesKeys(ps: seq<SinglePortfolioData>, t: Ticker)
    ensures t in MergedOverrides(ps) <==> exists k :: 0 <= k < |ps| && t in OverridesOf(ps[k])
  {
    if |ps| > 0 {
      var prefix := ps[..|ps| - 1];
      MergedOverridesKeys(prefix, t);
      if exists k :: 0 <= k < |ps| && t in OverridesOf(ps[k]) {
        var k :| 0 <= k < |ps| && t in OverridesOf(ps[k]);
        if k < |ps| - 1 {
          assert prefix[k] == ps[k];
        }
      }
      if exists k :: 0 <= k < |prefix| && t in OverridesOf(prefix[k]) {
        var k :| 0 <= k < |prefix| && t in OverridesOf(prefix[k]);
        assert ps[k] == prefix[k];
      }
    }
  }

  /**
   * When several accounts override the class of a ticker, the last of them
   * wins.
   */
  lemma {:induction false} MergedOverridesLastWins(ps: seq<SinglePortfolioData>, t: Ticker, k: nat)
    requires k < |ps| && t in OverridesOf(ps[k])
    requires forall j :: k < j < |ps| ==> t !in OverridesOf(ps[j])
    ensures t in MergedOverrides(ps) && MergedOverrides(ps)[t] == OverridesOf(ps[k])[t]
  {
    var prefix := ps[..|ps| - 1];
    if k < |ps| - 1 {
      assert prefix[k] == ps[k];
      MergedOverridesLastWins(prefix, t, k);
      assert t !in OverridesOf(ps[|ps| - 1]);
    }
  }

  /**
   * The merge loop: every amount of every account is added to the running
   * holdings, and every account's overrides update the running overrides.
   */
  method CombinePortfolios(ps: seq<SinglePortfolioData>)
    returns (combinedHoldings: seq<(Ticker, real)>, combinedOverrides: map<Ticker, string>)
    ensures combinedHoldings == CombinedHoldingsOf(ps)
    ensures combinedOverrides == MergedOverrides(ps)
  {
    combinedHoldings := [];
    combinedOverrides := map[];
    var k := 0;
    while k < |ps|
      invariant 0 <= k <= |ps|
      invariant combinedHoldings == CombinedHoldingsOf(ps[..k])
      invariant combinedOverrides == MergedOverrides(ps[..k])
    {
      var p := ps[k];
      ghost var before := combinedHoldings;
      var j := 0;
      while j < |p.holdings|
        invariant 0 <= j <= |p.holdings|
        invariant combinedHoldings == AddAll(before, p.holdings[..j])
      {
        var (ticker, amount) := p.holdings[j];
        combinedHoldings := AddTo(combinedHoldings, ticker, amount);
        assert p.holdings[..j + 1][..j] == p.holdings[..j];
        j := j + 1;
      }
      assert p.holdings[..j] == p.holdings;
      if p.assetClassOverrides.Some? && |p.assetClassOverrides.value| > 0 {
        combinedOverrides := combinedOverrides + p.assetClassOverrides.value;
      }
      CombineStep(ps, k);
      k := k + 1;
    }
    assert ps[..k] == ps;
  }

  /** The merge of one more account: its holdings added, its overrides applied. */
  lemma CombineStep(ps: seq<SinglePortfolioData>, k: nat)
    requires k < |ps|
    ensures CombinedHoldingsOf(ps[..k + 1]) == AddAll(CombinedHoldingsOf(ps[..k]), ps[k].holdings)
    ensures var o := ps[k].assetClassOverrides;
      MergedOverrides(ps[..k + 1])
      == if o.Some? && |o.value| > 0 then MergedOverrides(ps[..k]) + o.value else MergedOverrides(ps[..k])
  {
    assert ps[..k + 1][..k] == ps[..k];
  }

  // ---------------------------------------------------------------------
  // Weighted advisory fee

  /**
   * Σ (account total / total value) * account fee over the accounts whose
   * total is positive.
   */
  function FeeShares(ps: seq<SinglePortfolioData>, totalValue: real): real
    requires totalValue > 0.0
  {
    if |ps| == 0 then 0.0
    else
      var p := ps[|ps| - 1];
      var share := Total(p.holdings);
      FeeShares(ps[..|ps| - 1], totalValue) + (if share > 0.0 then (share / totalValue) * p.advisoryFee else 0.0)
  }

  /** `weighted_fee`: 0 unless the total value is positive. */
  function WeightedFee(ps: seq<SinglePortfolioData>, totalValue: real): real
  {
    if totalValue > 0.0 then FeeShares(ps, totalValue) else 0.0
  }

  /** The sum of the account totals that are positive. */
  function PositiveTotal(ps: seq<SinglePortfolioData>): real
  {
    if |ps| == 0 then 0.0
    else PositiveTotal(ps[..|ps| - 1]) + (if Total(ps[|ps| - 1].holdings) > 0.0 then Total(ps[|ps| - 1].holdings) else 0.0)
  }

  /** Every account charges the fee `f`. */
  ghost predicate CommonFee(ps: seq<SinglePortfolioData>, f: real)
  {
    forall k :: 0 <= k < |ps| ==> ps[k].advisoryFee == f
  }

  /** No amount in any account is negative. */
  ghost predicate NonNegativeAmounts(ps: seq<SinglePortfolioData>)
  {
    forall k, i :: 0 <= k < |ps| && 0 <= i < |ps[k].holdings| ==> ps[k].holdings[i].1 >= 0.0
  }

  /** The fee `f` charged on the fraction `amount / totalValue` of the value. */
  function Portion(amount: real, totalValue: real, f: real): real
    requires totalValue > 0.0
  {
    (amount / totalValue) * f
  }

  lemma {:induction false} SharesOfCommonFee(ps: seq<SinglePortfolioData>, totalValue: real, f: real)
    requires totalValue > 0.0 && CommonFee(ps, f)
    ensures FeeShares(ps, totalValue) == Portion(PositiveTotal(ps), totalValue, f)
  {
    if |ps| > 0 {
      var prefix := ps[..|ps| - 1];
      assert CommonFee(prefix, f) by {
        forall k | 0 <= k < |prefix| ensures prefix[k].advisoryFee == f {
          assert prefix[k] == ps[k];
        }
      }
      SharesOfCommonFee(prefix, totalValue, f);
      var share := Total(ps[|ps| - 1].holdings);
      if share > 0.0 {
        assert (share / totalValue) * ps[|ps| - 1].advisoryFee == Portion(share, totalValue, f);
        SplitShare(PositiveTotal(prefix), share, totalValue, f);
      }
    }
  }

  lemma SplitShare(a: real, b: real, v: real, f: real)
    requires v > 0.0
    ensures Portion(a, v, f) + Portion(b, v, f) == Portion(a + b, v, f)
  {
    assert a / v + b / v == (a + b) / v;
  }

  lemma {:induction false} TotalNonNegative(d: seq<(Ticker, real)>)
    requires forall i :: 0 <= i < |d| ==> d[i].1 >= 0.0
    ensures Total(d) >= 0.0
  {
    if |d| > 0 {
      TotalNonNegative(d[1..]);
    }
  }

  lemma {:induction false} PositiveTotalOfNonNegative(ps: seq<SinglePortfolioData>)
    requires NonNegativeAmounts(ps)
    ensures PositiveTotal(ps) == TotalAcross(ps)
  {
    if |ps| > 0 {
      var prefix := ps[..|ps| - 1];
      assert NonNegativeAmounts(prefix) by {
        forall k, i | 0 <= k < |prefix| && 0 <= i < |prefix[k].holdings| ensures prefix[k].holdings[i].1 >= 0.0 {
          assert prefix[k] == ps[k];
        }
      }
      PositiveTotalOfNonNegative(prefix);
      TotalNonNegative(ps[|ps| - 1].holdings);
    }
  }

  /**
   * When every account charges the same fee `f` and no amount is negative,
   * the value-weighted fee of a positive total value is `f` itself.
   */
  lemma CommonFeeIsWeightedFee(ps: seq<SinglePortfolioData>, f: real)
    requires CommonFee(ps, f) && NonNegativeAmounts(ps)
    requires TotalAcross(ps) > 0.0
    ensures WeightedFee(ps, TotalAcross(ps)) == f
  {
    var v := TotalAcross(ps);
    SharesOfCommonFee(ps, v, f);
    PositiveTotalOfNonNegative(ps);
    assert Portion(v, v, f) == f by {
      assert v / v == 1.0;
    }
  }

  /** With no positive total value there is no fee to weigh. */
  lemma NoValueNoFee(ps: seq<SinglePortfolioData>, totalValue: real)
    requires totalValue <= 0.0
    ensures WeightedFee(ps, totalValue) == 0.0
  {
  }

  // ---------------------------------------------------------------------
  // Model dollars

  /** `{ticker: total_value * weight for ticker, weight in model_allocations.items()}` */
  function ModelDollars(totalValue: real, weights: seq<(Ticker, real)>): seq<(Ticker, real)>
  {
    if |weights| == 0 then []
    else [(weights[0].0, totalValue * weights[0].1)] + ModelDollars(totalValue, weights[1..])
  }

  /** The model's dollars hold exactly the model's tickers. */
  lemma {:induction false} ModelDollarsKeys(totalValue: real, weights: seq<(Ticker, real)>)
    ensures KeySet(ModelDollars(totalValue, weights)) == KeySet(weights)
  {
    if |weights| > 0 {
      var rest := ModelDollars(totalValue, weights[1..]);
      ModelDollarsKeys(totalValue, weights[1..]);
      assert ([(weights[0].0, totalValue * weights[0].1)] + rest)[1..] == rest;
    }
  }

  /** Each model ticker gets the total value times its weight. */
  lemma {:induction false} ModelDollarsValue(totalValue: real, weights: seq<(Ticker, real)>, t: Ticker)
    ensures ValueOf(ModelDollars(totalValue, weights), t) == totalValue * ValueOf(weights, t)
  {
    if |weights| > 0 {
      var rest := ModelDollars(totalValue, weights[1..]);
      ModelDollarsValue(totalValue, weights[1..], t);
      assert ([(weights[0].0, totalValue * weights[0].1)] + rest)[1..] == rest;
      ScaleSum(totalValue, if weights[0].0 == t then weights[0].1 else 0.0, ValueOf(weights[1..], t));
    }
  }

  /** The model's dollars add up to the total value times the sum of the weights. */
  lemma {:induction false} ModelDollarsTotal(totalValue: real, weights: seq<(Ticker, real)>)
    ensures Total(ModelDollars(totalValue, weights)) == totalValue * Total(weights)
  {
    if |weights| > 0 {
      var rest := ModelDollars(totalValue, weights[1..]);
      ModelDollarsTotal(totalValue, weights[1..]);
      assert ([(weights[0].0, totalValue * weights[0].1)] + rest)[1..] == rest;
      ScaleSum(totalValue, weights[0].1, Total(weights[1..]));
    }
  }

  lemma ScaleSum(v: real, a: real, b: real)
    ensures v * a + v * b == v * (a + b)
  {
  }

  /** Model weights that sum to 1 become dollars that sum to the total value. */
  lemma ModelDollarsSumToTotal(totalValue: real, weights: seq<(Ticker, real)>)
    requires Total(weights) == 1.0
    ensures Total(ModelDollars(totalValue, weights)) == totalValue
  {
    ModelDollarsTotal(totalValue, weights);
  }

  // ---------------------------------------------------------------------
  // Fee analysis

  /** What a portfolio pays in a year: its fund expenses plus the advisory fee, on its value. */
  function AnnualFee(weightedAvgEr: real, advisoryFee: real, totalValue: real): real
  {
    (weightedAvgEr + advisoryFee) * totalValue
  }

  datatype FeeAnalysis = FeeAnalysis(
    currentAnnualFee: real,
    modelAnnualFee: real,
    annualSavings: real,
    currentTotalFees: real,
    modelTotalFees: real)

  /** The `fee_analysis` dictionary. */
  function FeeAnalysisOf(currentAnnualFee: real, modelAnnualFee: real, currentTotalFees: real, modelTotalFees: real): FeeAnalysis
  {
    FeeAnalysis(currentAnnualFee, modelAnnualFee, currentAnnualFee - modelAnnualFee, currentTotalFees, modelTotalFees)
  }

  /**
   * On equal positive values, switching to the model saves money exactly
   * when the current combined fee rate is higher, and saves nothing exactly
   * when the rates are equal.
   */
  lemma SavingsFollowFeeRates(currentEr: real, currentFee: real, modelEr: real, modelFee: real, value: real,
                              currentTotalFees: real, modelTotalFees: real)
    requires value > 0.0
    ensures var a := FeeAnalysisOf(AnnualFee(currentEr, currentFee, value), AnnualFee(modelEr, modelFee, value),
                                   currentTotalFees, modelTotalFees);
      && (a.annualSavings > 0.0 <==> currentEr + currentFee > modelEr + modelFee)
      && (a.annualSavings == 0.0 <==> currentEr + currentFee == modelEr + modelFee)
  {
    var d := (currentEr + currentFee) - (modelEr + modelFee);
    assert AnnualFee(currentEr, currentFee, value) - AnnualFee(modelEr, modelFee, value) == d * value;
    SignOfScaled(d, value);
  }

  /** A product with a positive factor has the sign of the other factor. */
  lemma SignOfScaled(d: real, v: real)
    requires v > 0.0
    ensures d * v > 0.0 <==> d > 0.0
    ensures d * v == 0.0 <==> d == 0.0
  {
    if d > 0.0 {
      assert d * v > 0.0;
    } else if d < 0.0 {
      assert (-d) * v > 0.0;
    }
  }

  // ---------------------------------------------------------------------
  // Per-account projections and their aggregate

  /** The number of years every projection of the router covers. */
  const ProjectionYears: nat := 10

  /**
   * What the router reads off a `Portfolio` built from holdings and
   * overrides: its asset-class allocation and its value-weighted expense
   * ratio.
   */
  datatype PortfolioFigures = PortfolioFigures(allocation: map<AssetClass, real>, weightedAvgEr: real)

  /** The `Portfolio` class as the router sees it. */
  type Appraiser = (seq<(Ticker, real)>, map<Ticker, string>) -> PortfolioFigures

  /** The arguments of one account's `project_portfolio_with_taxes` call. */
  function AccountSettings(p: SinglePortfolioData, figures: Appraiser, growthRates: seq<(AssetClass, real)>, taxRate: real): TaxSettings
  {
    var fig := figures(p.holdings, OverridesOf(p));
    SettingsFor(fig.allocation, growthRates, fig.weightedAvgEr + p.advisoryFee, Total(p.holdings),
                p.annualCashFlow, taxRate, p.accountType)
  }

  /** The projections of the accounts that hold something, in account order. */
  function AccountProjections(ps: seq<SinglePortfolioData>, figures: Appraiser, growthRates: seq<(AssetClass, real)>, taxRate: real)
    : seq<TaxProjection>
  {
    if |ps| == 0 then []
    else
      var before := AccountProjections(ps[..|ps| - 1], figures, growthRates, taxRate);
      if |ps[|ps| - 1].holdings| == 0 then before
      else before + [AccountProjection(ps[|ps| - 1], figures, growthRates, taxRate)]
  }

  /** There is no projection exactly when no account holds anything. */
  lemma {:induction false} AccountProjectionsEmpty(
    ps: seq<SinglePortfolioData>, figures: Appraiser, growthRates: seq<(AssetClass, real)>, taxRate: real)
    ensures |AccountProjections(ps, figures, growthRates, taxRate)| == 0
      <==> forall k :: 0 <= k < |ps| ==> |ps[k].holdings| == 0
  {
    if |ps| > 0 {
      var n := |ps| - 1;
      AccountProjectionsEmpty(ps[..n], figures, growthRates, taxRate);
      assert forall k :: 0 <= k < n ==> ps[..n][k] == ps[k];
    }
  }

  /** One account's projection over the router's horizon. */
  function AccountProjection(p: SinglePortfolioData, figures: Appraiser, growthRates: seq<(AssetClass, real)>, taxRate: real)
    : TaxProjection
  {
    TaxProjectionOf(AccountSettings(p, figures, growthRates, taxRate), ProjectionYears)
  }

  /**
   * Projecting one account: a `Portfolio` of its holdings gives the
   * allocation and expense ratio, the account adds its advisory fee, cash
   * flow and account type.
   */
  method ProjectAccount(p: SinglePortfolioData, figures: Appraiser, growthRates: seq<(AssetClass, real)>, taxRate: real)
    returns (projection: TaxProjection)
    ensures projection == AccountProjection(p, figures, growthRates, taxRate)
    ensures |projection.yearlyProjections| == ProjectionYears
    ensures projection.yearlyProjections[0].startingValue == Total(p.holdings)
    ensures projection.accountType == p.accountType
    ensures projection.totalCashFlows == ProjectionYears as real * p.annualCashFlow
  {
    TaxProjectionChaining(AccountSettings(p, figures, growthRates, taxRate), ProjectionYears);
    Projection.TotalCashFlows(AccountSettings(p, figures, growthRates, taxRate), ProjectionYears);
    var fig := figures(p.holdings, OverridesOf(p));
    var pTotalFeeRate := fig.weightedAvgEr + p.advisoryFee;
    var pInitialValue := Total(p.holdings);
    projection := ProjectPortfolioWithTaxes(
      fig.allocation, growthRates, pTotalFeeRate, pInitialValue, p.annualCashFlow, taxRate, p.accountType,
      ProjectionYears);
  }

  lemma AccountProjectionsStep(ps: seq<SinglePortfolioData>, k: nat, figures: Appraiser, growthRates: seq<(AssetClass, real)>, taxRate: real)
    requires k < |ps|
    ensures AccountProjections(ps[..k + 1], figures, growthRates, taxRate)
      == if |ps[k].holdings| == 0 then AccountProjections(ps[..k], figures, growthRates, taxRate)
         else AccountProjections(ps[..k], figures, growthRates, taxRate)
              + [AccountProjection(ps[k], figures, growthRates, taxRate)]
  {
    assert ps[..k + 1][..k] == ps[..k];
  }

  /**
   * A yearly row of the aggregate projection.  The code builds it from the
   * money columns of a projection row and leaves out `after_cash_flow` and
   * `annual_return`.
   */
  datatype AggregateRow = AggregateRow(
    year: nat,
    startingValue: real,
    endingValue: real,
    growth: real,
    fees: real,
    taxes: real,
    cashFlow: real,
    deferredTaxLiability: real)

  datatype AggregateProjection = AggregateProjection(
    weightedAnnualReturn: real,
    finalPortfolioValue: real,
    totalFees: real,
    totalTaxes: real,
    totalCashFlows: real,
    deferredTaxLiability: real,
    yearlyProjections: seq<AggregateRow>)

  function RowField(row: AggregateRow, f: Field): real
  {
    match f
    case StartingValue => row.startingValue
    case CashFlow => row.cashFlow
    case Growth => row.growth
    case Taxes => row.taxes
    case Fees => row.fees
    case EndingValue => row.endingValue
    case DeferredTaxLiability => row.deferredTaxLiability
  }

  /** The first account's row, copied. */
  function CopyRow(yp: TaxRow): (row: AggregateRow)
    ensures row.year == yp.year
    ensures forall f :: RowField(row, f) == FieldOf(yp, f)
  {
    AggregateRow(yp.year, yp.startingValue, yp.endingValue, yp.growth, yp.fees, yp.taxes, yp.cashFlow,
                 yp.deferredTaxLiability)
  }

  /** A later account's row added into an aggregate row: every money column `+=`. */
  function AddRow(row: AggregateRow, yp: TaxRow): (sum: AggregateRow)
    ensures sum.year == row.year
    ensures forall f :: RowField(sum, f) == RowField(row, f) + FieldOf(yp, f)
  {
    AggregateRow(row.year, row.startingValue + yp.startingValue, row.endingValue + yp.endingValue,
                 row.growth + yp.growth, row.fees + yp.fees, row.taxes + yp.taxes,
                 row.cashFlow + yp.cashFlow, row.deferredTaxLiability + yp.deferredTaxLiability)
  }

  function CopyRows(yps: seq<TaxRow>): seq<AggregateRow>
  {
    seq(|yps|, i requires 0 <= i < |yps| => CopyRow(yps[i]))
  }

  /** Rows beyond the aggregate's length are ignored. */
  function AddRows(rows: seq<AggregateRow>, yps: seq<TaxRow>): seq<AggregateRow>
  {
    seq(|rows|, i requires 0 <= i < |rows| => if i < |yps| then AddRow(rows[i], yps[i]) else rows[i])
  }

  /** The aggregate as the first account's projection initialises it. */
  function StartAggregate(p: TaxProjection): AggregateProjection
  {
    AggregateProjection(p.weightedAnnualReturn, p.finalPortfolioValue, p.totalFees, p.totalTaxes,
                        p.totalCashFlows, p.deferredTaxLiability, CopyRows(p.yearlyProjections))
  }

  /** A later account's projection added into the aggregate. */
  function AddProjection(a: AggregateProjection, p: TaxProjection): AggregateProjection
  {
    AggregateProjection(a.weightedAnnualReturn, a.finalPortfolioValue + p.finalPortfolioValue,
                        a.totalFees + p.totalFees, a.totalTaxes + p.totalTaxes,
                        a.totalCashFlows + p.totalCashFlows, a.deferredTaxLiability + p.deferredTaxLiability,
                        AddRows(a.yearlyProjections, p.yearlyProjections))
  }

  /** `aggregate_projections` after the loop has folded in the projections `projs`. */
  function AggregateOf(projs: seq<TaxProjection>): (r: Option<AggregateProjection>)
    ensures r.None? <==> |projs| == 0
  {
    if |projs| == 0 then None
    else
      var prev := AggregateOf(projs[..|projs| - 1]);
      var p := projs[|projs| - 1];
      if prev.None? then Some(StartAggregate(p)) else Some(AddProjection(prev.value, p))
  }

  lemma AggregateOfStep(projs: seq<TaxProjection>, p: TaxProjection)
    ensures AggregateOf(projs + [p])
      == if AggregateOf(projs).None? then Some(StartAggregate(p)) else Some(AddProjection(AggregateOf(projs).value, p))
  {
    assert (projs + [p])[..|projs|] == projs;
  }

  /** The projection totals that the aggregate adds up. */
  datatype Figure = FinalPortfolioValue | TotalFees | TotalTaxes | TotalCashFlows | DeferredTaxLiabilityTotal

  function FigureOf(p: TaxProjection, g: Figure): real
  {
    match g
    case FinalPortfolioValue => p.finalPortfolioValue
    case TotalFees => p.totalFees
    case TotalTaxes => p.totalTaxes
    case TotalCashFlows => p.totalCashFlows
    case DeferredTaxLiabilityTotal => p.deferredTaxLiability
  }

  function AggregateFigure(a: AggregateProjection, g: Figure): real
  {
    match g
    case FinalPortfolioValue => a.finalPortfolioValue
    case TotalFees => a.totalFees
    case TotalTaxes => a.totalTaxes
    case TotalCashFlows => a.totalCashFlows
    case DeferredTaxLiabilityTotal => a.deferredTaxLiability
  }

  /** Σ of one total over the projections. */
  function SumFigure(projs: seq<TaxProjection>, g: Figure): real
  {
    if |projs| == 0 then 0.0 else SumFigure(projs[..|projs| - 1], g) + FigureOf(projs[|projs| - 1], g)
  }

  /** Σ over the projections of column `f` of year row `i`, 0 where a projection has no such row. */
  function ColumnAt(projs: seq<TaxProjection>, i: nat, f: Field): real
  {
    if |projs| == 0 then 0.0
    else
      var rows := projs[|projs| - 1].yearlyProjections;
      ColumnAt(projs[..|projs| - 1], i, f) + (if i < |rows| then FieldOf(rows[i], f) else 0.0)
  }

  /**
   * The aggregate's totals are the sums of the accounts' totals, and its
   * weighted annual return is the first account's.
   */
  lemma {:induction false} AggregateTotals(projs: seq<TaxProjection>)
    requires |projs| > 0
    ensures AggregateOf(projs).value.weightedAnnualReturn == projs[0].weightedAnnualReturn
    ensures forall g :: AggregateFigure(AggregateOf(projs).value, g) == SumFigure(projs, g)
  {
    var prefix := projs[..|projs| - 1];
    if |prefix| > 0 {
      AggregateTotals(prefix);
      assert prefix[0] == projs[0];
    }
  }

  /**
   * The aggregate has the first account's rows, numbered as they are, and
   * each money column of row `i` is the sum of that column over the accounts
   * (an account with fewer rows adds nothing to the rows it lacks).
   */
  lemma {:induction false} AggregateRows(projs: seq<TaxProjection>)
    requires |projs| > 0
    ensures |AggregateOf(projs).value.yearlyProjections| == |projs[0].yearlyProjections|
    ensures forall i :: 0 <= i < |projs[0].yearlyProjections| ==>
      AggregateOf(projs).value.yearlyProjections[i].year == projs[0].yearlyProjections[i].year
    ensures forall i, f :: 0 <= i < |projs[0].yearlyProjections| ==>
      RowField(AggregateOf(projs).value.yearlyProjections[i], f) == ColumnAt(projs, i, f)
  {
    var prefix := projs[..|projs| - 1];
    if |prefix| > 0 {
      AggregateRows(prefix);
      assert prefix[0] == projs[0];
    } else {
      assert projs == [projs[0]];
    }
  }

  /**
   * The first account's yearly rows, copied one by one into the aggregate.
   */
  method InitialAggregate(p: TaxProjection) returns (a: AggregateProjection)
    ensures a == StartAggregate(p)
  {
    var rows: seq<AggregateRow> := [];
    var i := 0;
    while i < |p.yearlyProjections|
      invariant 0 <= i <= |p.yearlyProjections|
      invariant |rows| == i
      invariant forall j :: 0 <= j < i ==> rows[j] == CopyRow(p.yearlyProjections[j])
    {
      rows := rows + [CopyRow(p.yearlyProjections[i])];
      i := i + 1;
    }
    assert rows == CopyRows(p.yearlyProjections);
    a := AggregateProjection(p.weightedAnnualReturn, p.finalPortfolioValue, p.totalFees, p.totalTaxes,
                             p.totalCashFlows, p.deferredTaxLiability, rows);
  }

  /**
   * A later account's projection added in: the totals `+=`, then each of its
   * rows added into the aggregate row of the same index, if there is one.
   */
  method AddIntoAggregate(a0: AggregateProjection, p: TaxProjection) returns (a: AggregateProjection)
    ensures a == AddProjection(a0, p)
  {
    var rows := a0.yearlyProjections;
    var i := 0;
    while i < |p.yearlyProjections|
      invariant 0 <= i <= |p.yearlyProjections|
      invariant |rows| == |a0.yearlyProjections|
      invariant forall j :: 0 <= j < |rows| ==>
        rows[j] == if j < i then AddRow(a0.yearlyProjections[j], p.yearlyProjections[j]) else a0.yearlyProjections[j]
    {
      if i < |rows| {
        rows := rows[i := AddRow(rows[i], p.yearlyProjections[i])];
      }
      i := i + 1;
    }
    assert rows == AddRows(a0.yearlyProjections, p.yearlyProjections);
    a := AggregateProjection(a0.weightedAnnualReturn, a0.finalPortfolioValue + p.finalPortfolioValue,
                             a0.totalFees + p.totalFees, a0.totalTaxes + p.totalTaxes,
                             a0.totalCashFlows + p.totalCashFlows, a0.deferredTaxLiability + p.deferredTaxLiability,
                             rows);
  }

  /**
   * The aggregation loop: each account with holdings is projected on its
   * own fee, cash flow and account type, and its projection folded into the
   * aggregate; accounts without holdings are skipped.
   */
  method AggregateAccountProjections(
    ps: seq<SinglePortfolioData>, figures: Appraiser, growthRates: seq<(AssetClass, real)>, taxRate: real)
    returns (agg: Option<AggregateProjection>)
    ensures agg == AggregateOf(AccountProjections(ps, figures, growthRates, taxRate))
  {
    agg := None;
    ghost var done: seq<TaxProjection> := [];
    var k := 0;
    while k < |ps|
      invariant 0 <= k <= |ps|
      invariant done == AccountProjections(ps[..k], figures, growthRates, taxRate)
      invariant agg == AggregateOf(done)
    {
      var p := ps[k];
      AccountProjectionsStep(ps, k, figures, growthRates, taxRate);
      if |p.holdings| > 0 {
        var pProjection := ProjectAccount(p, figures, growthRates, taxRate);
        AggregateOfStep(done, pProjection);
        if agg.None? {
          var a := InitialAggregate(pProjection);
          agg := Some(a);
        } else {
          var a := AddIntoAggregate(agg.value, pProjection);
          agg := Some(a);
        }
        done := done + [pProjection];
      }
      assert done == AccountProjections(ps[..k + 1], figures, growthRates, taxRate);
      k := k + 1;
    }
    assert ps[..k] == ps;
  }

  // ---------------------------------------------------------------------
  // The analysis handlers

  /** `PortfolioAnalysisRequest` */
  datatype AnalysisRequest = AnalysisRequest(
    holdings: seq<(Ticker, real)>,
    advisoryFee: real,
    assetClassOverrides: Option<map<Ticker, string>>,
    accountType: AccountType,
    annualCashFlow: real,
    taxRate: real)

  /** `AggregateAnalysisRequest` */
  datatype AggregateRequest = AggregateRequest(portfolios: seq<SinglePortfolioData>, taxRate: real)

  /**
   * `find_best_matching_model`: for an allocation, the best model (its name
   * and its ticker weights) if there is one, and the similarity.
   */
  type Matcher = map<AssetClass, real> -> (Option<(string, seq<(Ticker, real)>)>, real)

  /** The figures the response reports for one side of the comparison. */
  datatype PortfolioSummary = PortfolioSummary(
    totalValue: real,
    weightedAvgEr: real,
    allocation: map<AssetClass, real>,
    advisoryFee: real)

  datatype PortfolioAnalysis = PortfolioAnalysis(
    current: PortfolioSummary,
    model: PortfolioSummary,
    modelName: string,
    similarity: real,
    modelDollars: seq<(Ticker, real)>,
    currentProjection: TaxProjection,
    modelProjection: TaxProjection,
    feeAnalysis: FeeAnalysis)

  datatype AggregateAnalysis = AggregateAnalysis(
    current: PortfolioSummary,
    model: PortfolioSummary,
    modelName: string,
    similarity: real,
    modelDollars: seq<(Ticker, real)>,
    currentProjection: Option<AggregateProjection>,
    modelProjection: TaxProjection,
    feeAnalysis: FeeAnalysis)

  /**
   * The fee analysis of two summaries: each side pays its expense ratio plus
   * its advisory fee on its own value.
   */
  function SummaryFees(current: PortfolioSummary, model: PortfolioSummary, currentTotalFees: real, modelTotalFees: real)
    : FeeAnalysis
  {
    FeeAnalysisOf(AnnualFee(current.weightedAvgEr, current.advisoryFee, current.totalValue),
                  AnnualFee(model.weightedAvgEr, model.advisoryFee, model.totalValue),
                  currentTotalFees, modelTotalFees)
  }

  /**
   * Two summaries of the same positive value: the model saves money
   * exactly when the current combined fee rate is higher.
   */
  lemma SummarySavings(current: PortfolioSummary, model: PortfolioSummary, currentTotalFees: real, modelTotalFees: real)
    requires current.totalValue == model.totalValue && current.totalValue > 0.0
    ensures SummaryFees(current, model, currentTotalFees, modelTotalFees).annualSavings > 0.0
      <==> current.weightedAvgEr + current.advisoryFee > model.weightedAvgEr + model.advisoryFee
  {
    SavingsFollowFeeRates(current.weightedAvgEr, current.advisoryFee, model.weightedAvgEr, model.advisoryFee,
                          current.totalValue, currentTotalFees, modelTotalFees);
  }

  function OverridesOrEmpty(o: Option<map<Ticker, string>>): map<Ticker, string>
  {
    if o.Some? then o.value else map[]
  }

  /** The settings of the model's projection: the model's figures on the given cash flow and account type. */
  function ModelSettings(
    model: PortfolioFigures, growthRates: seq<(AssetClass, real)>, modelFee: real, modelValue: real,
    annualCashFlow: real, taxRate: real, accountType: AccountType): TaxSettings
  {
    SettingsFor(model.allocation, growthRates, model.weightedAvgEr + modelFee, modelValue, annualCashFlow, taxRate, accountType)
  }

  /** The model the matcher chose: its name and its ticker weights. */
  type ModelChoice = (string, seq<(Ticker, real)>)

  /**
   * What `analyze_portfolio` answers once a model is chosen: both sides
   * projected over ten years and their fees compared.
   */
  function SingleComparison(
    req: AnalysisRequest, figures: Appraiser, choice: ModelChoice, similarity: real,
    growthRates: seq<(AssetClass, real)>, modelFee: real): PortfolioAnalysis
  {
    var current := figures(req.holdings, OverridesOrEmpty(req.assetClassOverrides));
    var totalValue := Total(req.holdings);
    var modelDollars := ModelDollars(totalValue, choice.1);
    var model := figures(modelDollars, map[]);
    var modelValue := Total(modelDollars);
    var currentProjection := TaxProjectionOf(
      SettingsFor(current.allocation, growthRates, current.weightedAvgEr + req.advisoryFee, totalValue,
                  req.annualCashFlow, req.taxRate, req.accountType), ProjectionYears);
    var modelProjection := TaxProjectionOf(
      ModelSettings(model, growthRates, modelFee, modelValue, req.annualCashFlow, req.taxRate, req.accountType),
      ProjectionYears);
    var currentSummary := PortfolioSummary(totalValue, current.weightedAvgEr, current.allocation, req.advisoryFee);
    var modelSummary := PortfolioSummary(modelValue, model.weightedAvgEr, model.allocation, modelFee);
    PortfolioAnalysis(
      currentSummary, modelSummary, choice.0, similarity, modelDollars, currentProjection, modelProjection,
      SummaryFees(currentSummary, modelSummary, currentProjection.totalFees, modelProjection.totalFees))
  }

  /** The body of `analyze_portfolio`'s `try` block. */
  function AnalysisBody(req: AnalysisRequest, figures: Appraiser, matcher: Matcher, growthRates: seq<(AssetClass, real)>, modelFee: real)
    : Result<PortfolioAnalysis>
  {
    var current := figures(req.holdings, OverridesOrEmpty(req.assetClassOverrides));
    var (bestMatch, similarity) := matcher(current.allocation);
    if bestMatch.None? then Err(HttpError(InternalServerError, "No matching model portfolio found"))
    else Ok(SingleComparison(req, figures, bestMatch.value, similarity, growthRates, modelFee))
  }

  /**
   * `analyze_portfolio`: empty holdings are rejected with 400 before the
   * `try` block; a failure inside it, such as finding no model, becomes a
   * 500; otherwise the answer compares the portfolio with the chosen model.
   */
  function AnalyzePortfolio(req: AnalysisRequest, figures: Appraiser, matcher: Matcher, growthRates: seq<(AssetClass, real)>, modelFee: real)
    : (r: Result<PortfolioAnalysis>)
    ensures r.Err? && r.error.statusCode == BadRequest <==> |req.holdings| == 0
    ensures var m := matcher(figures(req.holdings, OverridesOrEmpty(req.assetClassOverrides)).allocation);
      |req.holdings| > 0 && m.0.None? ==> r.Err? && r.error.statusCode == InternalServerError
    ensures var m := matcher(figures(req.holdings, OverridesOrEmpty(req.assetClassOverrides)).allocation);
      |req.holdings| > 0 && m.0.Some? ==> r == Ok(SingleComparison(req, figures, m.0.value, m.1, growthRates, modelFee))
  {
    if |req.holdings| == 0 then Err(HttpError(BadRequest, "Portfolio must have at least one holding"))
    else WrapFailure("Analysis failed: ", AnalysisBody(req, figures, matcher, growthRates, modelFee))
  }

  /**
   * In a single analysis the model is projected on the request's own cash
   * flow and account type (over ten years the cash flows total ten times
   * the request's), although it is meant to be compared without one.
   */
  lemma SingleModelProjection(
    req: AnalysisRequest, figures: Appraiser, choice: ModelChoice, similarity: real,
    growthRates: seq<(AssetClass, real)>, modelFee: real)
    ensures SingleComparison(req, figures, choice, similarity, growthRates, modelFee).modelProjection.accountType
         == req.accountType
    ensures SingleComparison(req, figures, choice, similarity, growthRates, modelFee).modelProjection.totalCashFlows
         == ProjectionYears as real * req.annualCashFlow
  {
    var modelDollars := ModelDollars(Total(req.holdings), choice.1);
    var s := ModelSettings(figures(modelDollars, map[]), growthRates, modelFee, Total(modelDollars), req.annualCashFlow,
                           req.taxRate, req.accountType);
    Projection.TotalCashFlows(s, ProjectionYears);
  }

  /**
   * The fee analysis of a single analysis charges each side its own fee
   * rate on its own value and takes the ten-year fees from the two
   * projections; the model holds the portfolio's value times the sum of
   * its weights.
   */
  lemma SingleFeeAnalysis(
    req: AnalysisRequest, figures: Appraiser, choice: ModelChoice, similarity: real,
    growthRates: seq<(AssetClass, real)>, modelFee: real)
    ensures var a := SingleComparison(req, figures, choice, similarity, growthRates, modelFee);
      && a.current.totalValue == Total(req.holdings)
      && a.feeAnalysis.currentAnnualFee == AnnualFee(a.current.weightedAvgEr, a.current.advisoryFee, a.current.totalValue)
      && a.feeAnalysis.modelAnnualFee == AnnualFee(a.model.weightedAvgEr, a.model.advisoryFee, a.model.totalValue)
      && a.feeAnalysis.currentTotalFees == a.currentProjection.totalFees
      && a.feeAnalysis.modelTotalFees == a.modelProjection.totalFees
    ensures SingleComparison(req, figures, choice, similarity, growthRates, modelFee).model.totalValue
         == Total(req.holdings) * Total(choice.1)
  {
    ModelDollarsTotal(Total(req.holdings), choice.1);
  }

  /**
   * With model weights summing to 1 and a positive portfolio value, the
   * single analysis reports savings exactly when the current combined fee
   * rate exceeds the model's.
   */
  lemma SingleSavingsFollowFeeRates(
    req: AnalysisRequest, figures: Appraiser, choice: ModelChoice, similarity: real,
    growthRates: seq<(AssetClass, real)>, modelFee: real)
    requires Total(choice.1) == 1.0 && Total(req.holdings) > 0.0
    ensures var a := SingleComparison(req, figures, choice, similarity, growthRates, modelFee);
      a.feeAnalysis.annualSavings > 0.0
      <==> a.current.weightedAvgEr + a.current.advisoryFee > a.model.weightedAvgEr + a.model.advisoryFee
  {
    var a := SingleComparison(req, figures, choice, similarity, growthRates, modelFee);
    ModelDollarsTotal(Total(req.holdings), choice.1);
    SummarySavings(a.current, a.model, a.feeAnalysis.currentTotalFees, a.feeAnalysis.modelTotalFees);
  }

  /** `sum(p.annual_cash_flow for p in request.portfolios)` */
  function CashFlowAcross(ps: seq<SinglePortfolioData>): real
  {
    if |ps| == 0 then 0.0 else CashFlowAcross(ps[..|ps| - 1]) + ps[|ps| - 1].annualCashFlow
  }

  /**
   * What `analyze_aggregate_portfolio` answers once a model is chosen: the
   * merged holdings against the model, the accounts' projections added up,
   * and the model projected as one Brokerage account on all the cash flows.
   */
  function AggregateComparison(
    req: AggregateRequest, figures: Appraiser, choice: ModelChoice, similarity: real,
    growthRates: seq<(AssetClass, real)>, modelFee: real): AggregateAnalysis
  {
    var ps := req.portfolios;
    var combined := CombinedHoldingsOf(ps);
    var totalValue := Total(combined);
    var weightedFee := WeightedFee(ps, totalValue);
    var current := figures(combined, MergedOverrides(ps));
    var modelDollars := ModelDollars(totalValue, choice.1);
    var model := figures(modelDollars, map[]);
    var modelValue := Total(modelDollars);
    var aggregate := AggregateOf(AccountProjections(ps, figures, growthRates, req.taxRate));
    var modelProjection := TaxProjectionOf(
      ModelSettings(model, growthRates, modelFee, modelValue, CashFlowAcross(ps), req.taxRate, Brokerage),
      ProjectionYears);
    var currentSummary := PortfolioSummary(totalValue, current.weightedAvgEr, current.allocation, weightedFee);
    var modelSummary := PortfolioSummary(modelValue, model.weightedAvgEr, model.allocation, modelFee);
    AggregateAnalysis(
      currentSummary, modelSummary, choice.0, similarity, modelDollars, aggregate, modelProjection,
      SummaryFees(currentSummary, modelSummary, if aggregate.Some? then aggregate.value.totalFees else 0.0,
                  modelProjection.totalFees))
  }

  /**
   * The body of `analyze_aggregate_portfolio`'s `try` block, including its
   * own rejection of merged holdings that are empty.
   */
  function AggregateBody(req: AggregateRequest, figures: Appraiser, matcher: Matcher, growthRates: seq<(AssetClass, real)>, modelFee: real)
    : Result<AggregateAnalysis>
  {
    var ps := req.portfolios;
    var combined := CombinedHoldingsOf(ps);
    if |combined| == 0 then Err(HttpError(BadRequest, "No holdings found in any portfolio"))
    else
      var current := figures(combined, MergedOverrides(ps));
      var (bestMatch, similarity) := matcher(current.allocation);
      if bestMatch.None? then Err(HttpError(InternalServerError, "No matching model portfolio found"))
      else Ok(AggregateComparison(req, figures, bestMatch.value, similarity, growthRates, modelFee))
  }

  /**
   * `analyze_aggregate_portfolio` as written: the rejection of empty merged
   * holdings is raised inside the `try` block, whose catch-all turns it
   * into a 500.
   */
  function AnalyzeAggregateAsWritten(req: AggregateRequest, figures: Appraiser, matcher: Matcher, growthRates: seq<(AssetClass, real)>, modelFee: real)
    : (r: Result<AggregateAnalysis>)
    ensures r.Err? && r.error.statusCode == BadRequest <==> |req.portfolios| == 0
  {
    if |req.portfolios| == 0 then Err(HttpError(BadRequest, "At least one portfolio is required"))
    else WrapFailure("Aggregate analysis failed: ", AggregateBody(req, figures, matcher, growthRates, modelFee))
  }

  /**
   * `analyze_aggregate_portfolio` with both rejections answered as the 400
   * they are raised as: no portfolios, or no holdings in any of them.  A
   * missing model is a 500, and otherwise the answer compares the merged
   * holdings with the chosen model.
   */
  function AnalyzeAggregate(req: AggregateRequest, figures: Appraiser, matcher: Matcher, growthRates: seq<(AssetClass, real)>, modelFee: real)
    : (r: Result<AggregateAnalysis>)
    ensures r.Err? && r.error.statusCode == BadRequest
      <==> |req.portfolios| == 0 || forall k :: 0 <= k < |req.portfolios| ==> |req.portfolios[k].holdings| == 0
    ensures var ps := req.portfolios;
      var m := matcher(figures(CombinedHoldingsOf(ps), MergedOverrides(ps)).allocation);
      |CombinedHoldingsOf(ps)| > 0 && m.0.None? ==> r.Err? && r.error.statusCode == InternalServerError
    ensures var ps := req.portfolios;
      var m := matcher(figures(CombinedHoldingsOf(ps), MergedOverrides(ps)).allocation);
      |CombinedHoldingsOf(ps)| > 0 && m.0.Some? ==> r == Ok(AggregateComparison(req, figures, m.0.value, m.1, growthRates, modelFee))
  {
    CombinedHoldingsEmpty(req.portfolios);
    if |req.portfolios| == 0 then Err(HttpError(BadRequest, "At least one portfolio is required"))
    else if |CombinedHoldingsOf(req.portfolios)| == 0 then Err(HttpError(BadRequest, "No holdings found in any portfolio"))
    else WrapFailure("Aggregate analysis failed: ", AggregateBody(req, figures, matcher, growthRates, modelFee))
  }

  /** The detail of the 500 that wraps the rejection of empty merged holdings. */
  lemma EmptyHoldingsMessage()
    ensures "Aggregate analysis failed: " + Describe(HttpError(BadRequest, "No holdings found in any portfolio"))
         == "Aggregate analysis failed: " + "400: " + "No holdings found in any portfolio"
  {
    StatusCodeTexts();
    assert "400" + ": " == "400: ";
  }

  /**
   * Accounts that hold nothing get a 500 from the handler as written where
   * the raised status is 400.
   */
  lemma EmptyAccountsAnswer500AsWritten(req: AggregateRequest, figures: Appraiser, matcher: Matcher, growthRates: seq<(AssetClass, real)>, modelFee: real)
    requires |req.portfolios| > 0
    requires forall k :: 0 <= k < |req.portfolios| ==> |req.portfolios[k].holdings| == 0
    ensures AnalyzeAggregateAsWritten(req, figures, matcher, growthRates, modelFee).Err?
    ensures AnalyzeAggregateAsWritten(req, figures, matcher, growthRates, modelFee).error.statusCode == InternalServerError
    ensures AnalyzeAggregateAsWritten(req, figures, matcher, growthRates, modelFee).error.detail
         == "Aggregate analysis failed: " + "400: " + "No holdings found in any portfolio"
    ensures AnalyzeAggregate(req, figures, matcher, growthRates, modelFee).error
         == HttpError(BadRequest, "No holdings found in any portfolio")
  {
    CombinedHoldingsEmpty(req.portfolios);
    var inner := HttpError(BadRequest, "No holdings found in any portfolio");
    assert AggregateBody(req, figures, matcher, growthRates, modelFee) == Err(inner);
    EmptyHoldingsMessage();
  }

  /** On every other request the handler as written and the corrected one agree. */
  lemma AsWrittenAgreesOtherwise(req: AggregateRequest, figures: Appraiser, matcher: Matcher, growthRates: seq<(AssetClass, real)>, modelFee: real)
    requires |req.portfolios| == 0 || exists k :: 0 <= k < |req.portfolios| && |req.portfolios[k].holdings| > 0
    ensures AnalyzeAggregateAsWritten(req, figures, matcher, growthRates, modelFee)
         == AnalyzeAggregate(req, figures, matcher, growthRates, modelFee)
  {
    CombinedHoldingsEmpty(req.portfolios);
  }

  /**
   * The aggregate model is projected as a Brokerage account on the sum of
   * the accounts' cash flows.
   */
  lemma AggregateModelProjection(
    req: AggregateRequest, figures: Appraiser, choice: ModelChoice, similarity: real,
    growthRates: seq<(AssetClass, real)>, modelFee: real)
    ensures AggregateComparison(req, figures, choice, similarity, growthRates, modelFee).modelProjection.accountType
         == Brokerage
    ensures AggregateComparison(req, figures, choice, similarity, growthRates, modelFee).modelProjection.totalCashFlows
         == ProjectionYears as real * CashFlowAcross(req.portfolios)
  {
    var modelDollars := ModelDollars(Total(CombinedHoldingsOf(req.portfolios)), choice.1);
    var s := ModelSettings(figures(modelDollars, map[]), growthRates, modelFee, Total(modelDollars),
                           CashFlowAcross(req.portfolios), req.taxRate, Brokerage);
    Projection.TotalCashFlows(s, ProjectionYears);
  }

  /**
   * An aggregate analysis reports the accounts' combined value and the
   * value-weighted fee, charges that fee with the merged expense ratio on
   * the combined value, and takes the current ten-year fees from the sum of
   * the accounts' projected fees.
   */
  lemma AggregateFeeAnalysis(
    req: AggregateRequest, figures: Appraiser, choice: ModelChoice, similarity: real,
    growthRates: seq<(AssetClass, real)>, modelFee: real)
    ensures var a := AggregateComparison(req, figures, choice, similarity, growthRates, modelFee);
      && a.current.totalValue == TotalAcross(req.portfolios)
      && a.current.advisoryFee == WeightedFee(req.portfolios, TotalAcross(req.portfolios))
      && a.feeAnalysis.currentAnnualFee == AnnualFee(a.current.weightedAvgEr, a.current.advisoryFee, a.current.totalValue)
      && a.feeAnalysis.modelAnnualFee == AnnualFee(a.model.weightedAvgEr, a.model.advisoryFee, a.model.totalValue)
      && a.feeAnalysis.currentTotalFees
         == SumFigure(AccountProjections(req.portfolios, figures, growthRates, req.taxRate), TotalFees)
    ensures AggregateComparison(req, figures, choice, similarity, growthRates, modelFee).currentProjection.Some?
      <==> exists k :: 0 <= k < |req.portfolios| && |req.portfolios[k].holdings| > 0
  {
    CombinedHoldingsFacts(req.portfolios);
    AccountProjectionsEmpty(req.portfolios, figures, growthRates, req.taxRate);
    var projs := AccountProjections(req.portfolios, figures, growthRates, req.taxRate);
    if |projs| > 0 {
      AggregateTotals(projs);
      assert AggregateFigure(AggregateOf(projs).value, TotalFees) == SumFigure(projs, TotalFees);
    }
  }

  /** The aggregate model holds the accounts' combined value times the sum of its weights. */
  lemma AggregateModelValue(
    req: AggregateRequest, figures: Appraiser, choice: ModelChoice, similarity: real,
    growthRates: seq<(AssetClass, real)>, modelFee: real)
    ensures AggregateComparison(req, figures, choice, similarity, growthRates, modelFee).model.totalValue
         == TotalAcross(req.portfolios) * Total(choice.1)
  {
    CombinedHoldingsFacts(req.portfolios);
    ModelDollarsTotal(Total(CombinedHoldingsOf(req.portfolios)), choice.1);
  }

  /**
   * With model weights summing to 1 and a positive combined value, the
   * aggregate analysis reports savings exactly when the merged expense ratio
   * plus the value-weighted fee exceeds the model's combined fee rate.
   */
  lemma AggregateSavingsFollowFeeRates(
    req: AggregateRequest, figures: Appraiser, choice: ModelChoice, similarity: real,
    growthRates: seq<(AssetClass, real)>, modelFee: real)
    requires Total(choice.1) == 1.0 && TotalAcross(req.portfolios) > 0.0
    ensures var a := AggregateComparison(req, figures, choice, similarity, growthRates, modelFee);
      a.feeAnalysis.annualSavings > 0.0
      <==> a.current.weightedAvgEr + a.current.advisoryFee > a.model.weightedAvgEr + a.model.advisoryFee
  {
    var a := AggregateComparison(req, figures, choice, similarity, growthRates, modelFee);
    var v := TotalAcross(req.portfolios);
    assert a.current.totalValue == v by {
      CombinedHoldingsFacts(req.portfolios);
    }
    assert a.model.totalValue == v by {
      AggregateModelValue(req, figures, choice, similarity, growthRates, modelFee);
    }
    SummarySavings(a.current, a.model, a.feeAnalysis.currentTotalFees, a.feeAnalysis.modelTotalFees);
  }
}
