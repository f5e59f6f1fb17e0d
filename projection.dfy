/**
 * The forward projections of the analytics engine.  Each projection first
 * reduces an asset-class allocation and a table of per-class growth rates to
 * one weighted annual return, then runs a year loop in which each year's
 * ending value is the next year's starting value.
 *
 * - ProjectPortfolioReturns: plain compounding of $1.
 * - ProjectPortfolioWithFees: growth, then a fee on the grown value.
 * - ProjectPortfolioWithTaxes: cash flow, then growth, then tax by account
 *   type, then fee.  TaxProjectionOf is its specification, and the lemmas
 *   below state the properties of that specification.
 *
 * All quantities are exact reals; floating-point rounding is not modelled.
 */
module Projection {

  /** An asset-class name such as "US Equities". */
  type AssetClass = string

  datatype AccountType = Brokerage | RothIRA | TraditionalIRA

  /** `allocation.get(c, 0)` */
  function Weight(allocation: map<AssetClass, real>, c: AssetClass): real
  {
    if c in allocation then allocation[c] else 0.0
  }

  /**
   * `sum(allocation.get(c, 0) * rate for c, rate in growth_rates.items())`,
   * summed in the order of the growth-rate table.
   */
  function WeightedReturn(allocation: map<AssetClass, real>, growthRates: seq<(AssetClass, real)>): real
  {
    if |growthRates| == 0 then 0.0
    else
      var last := growthRates[|growthRates| - 1];
      WeightedReturn(allocation, growthRates[..|growthRates| - 1]) + Weight(allocation, last.0) * last.1
  }

  /** The part of the allocation that falls on classes of the growth-rate table. */
  function CoveredWeight(allocation: map<AssetClass, real>, growthRates: seq<(AssetClass, real)>): real
  {
    if |growthRates| == 0 then 0.0
    else CoveredWeight(allocation, growthRates[..|growthRates| - 1]) + Weight(allocation, growthRates[|growthRates| - 1].0)
  }

  /**
   * Only the classes of the growth-rate table matter: two allocations that
   * give those classes the same weight (a missing class counting as weight 0)
   * have the same weighted return, whatever else they hold.
   */
  lemma {:induction false} WeightedReturnIgnoresOtherClasses(
    a1: map<AssetClass, real>, a2: map<AssetClass, real>, growthRates: seq<(AssetClass, real)>)
    requires forall i :: 0 <= i < |growthRates| ==> Weight(a1, growthRates[i].0) == Weight(a2, growthRates[i].0)
    ensures WeightedReturn(a1, growthRates) == WeightedReturn(a2, growthRates)
  {
    if |growthRates| > 0 {
      var n := |growthRates| - 1;
      WeightedReturnIgnoresOtherClasses(a1, a2, growthRates[..n]);
      assert Weight(a1, growthRates[n].0) == Weight(a2, growthRates[n].0);
    }
  }

  /**
   * With non-negative weights, the weighted return lies between the lowest
   * and the highest rate, scaled by the weight the table covers; so an
   * allocation whose covered weights sum to 1 earns a rate in [lo, hi].
   */
  lemma WeightedReturnBounds(
    allocation: map<AssetClass, real>, growthRates: seq<(AssetClass, real)>, lo: real, hi: real)
    requires forall i :: 0 <= i < |growthRates| ==> lo <= growthRates[i].1 <= hi
    requires forall i :: 0 <= i < |growthRates| ==> Weight(allocation, growthRates[i].0) >= 0.0
    ensures lo * CoveredWeight(allocation, growthRates) <= WeightedReturn(allocation, growthRates)
    ensures WeightedReturn(allocation, growthRates) <= hi * CoveredWeight(allocation, growthRates)
  {
    WeightedReturnLowerBound(allocation, growthRates, lo);
    WeightedReturnUpperBound(allocation, growthRates, hi);
  }

  lemma {:induction false} WeightedReturnLowerBound(
    allocation: map<AssetClass, real>, growthRates: seq<(AssetClass, real)>, lo: real)
    requires forall i :: 0 <= i < |growthRates| ==> lo <= growthRates[i].1
    requires forall i :: 0 <= i < |growthRates| ==> Weight(allocation, growthRates[i].0) >= 0.0
    ensures lo * CoveredWeight(allocation, growthRates) <= WeightedReturn(allocation, growthRates)
  {
    if |growthRates| > 0 {
      var n := |growthRates| - 1;
      WeightedReturnLowerBound(allocation, growthRates[..n], lo);
      LowerBoundStep(lo, Weight(allocation, growthRates[n].0), growthRates[n].1,
                     CoveredWeight(allocation, growthRates[..n]), WeightedReturn(allocation, growthRates[..n]));
    }
  }

  /** Adding a class of weight w >= 0 and rate >= lo keeps lo * covered <= earned. */
  lemma LowerBoundStep(lo: real, w: real, rate: real, covered: real, earned: real)
    requires lo * covered <= earned && lo <= rate && w >= 0.0
    ensures lo * (covered + w) <= earned + w * rate
  {
    ScaleMonotone(w, lo, rate);
    Distribute(lo, covered, w);
  }

  lemma {:induction false} WeightedReturnUpperBound(
    allocation: map<AssetClass, real>, growthRates: seq<(AssetClass, real)>, hi: real)
    requires forall i :: 0 <= i < |growthRates| ==> growthRates[i].1 <= hi
    requires forall i :: 0 <= i < |growthRates| ==> Weight(allocation, growthRates[i].0) >= 0.0
    ensures WeightedReturn(allocation, growthRates) <= hi * CoveredWeight(allocation, growthRates)
  {
    if |growthRates| > 0 {
      var n := |growthRates| - 1;
      WeightedReturnUpperBound(allocation, growthRates[..n], hi);
      UpperBoundStep(hi, Weight(allocation, growthRates[n].0), growthRates[n].1,
                     CoveredWeight(allocation, growthRates[..n]), WeightedReturn(allocation, growthRates[..n]));
    }
  }

  /** Adding a class of weight w >= 0 and rate <= hi keeps earned <= hi * covered. */
  lemma UpperBoundStep(hi: real, w: real, rate: real, covered: real, earned: real)
    requires earned <= hi * covered && rate <= hi && w >= 0.0
    ensures earned + w * rate <= hi * (covered + w)
  {
    ScaleMonotone(w, rate, hi);
    Distribute(hi, covered, w);
  }

  lemma ScaleMonotone(w: real, x: real, y: real)
    requires w >= 0.0 && x <= y
    ensures w * x <= w * y && x * w <= y * w
  {
    assert w * y - w * x == w * (y - x);
  }

  lemma Distribute(x: real, y: real, z: real)
    ensures x * (y + z) == x * y + x * z
    ensures x * (y - z) == x * y - x * z
    ensures (y + z) * x == y * x + z * x
    ensures (y - z) * x == y * x - z * x
  {
  }

  /** `x ** n` for a natural exponent. */
  function Pow(x: real, n: nat): real
  {
    if n == 0 then 1.0 else Pow(x, n - 1) * x
  }

  // ---------------------------------------------------------------------
  // project_portfolio_returns

  datatype ReturnRow = ReturnRow(year: nat, portfolioValue: real, annualReturn: real, cumulativeReturn: real)

  datatype ReturnProjection = ReturnProjection(
    weightedAnnualReturn: real,
    totalProjectedReturn: real,
    finalPortfolioValue: real,
    yearlyProjections: seq<ReturnRow>)

  /**
   * Compounds $1 at the weighted annual return for `years` years.  Year k is
   * worth (1 + r)^k, and the closed-form total return agrees with the loop's
   * final value.
   */
  method ProjectPortfolioReturns(
    allocation: map<AssetClass, real>, growthRates: seq<(AssetClass, real)>, years: nat)
    returns (p: ReturnProjection)
    ensures p.weightedAnnualReturn == WeightedReturn(allocation, growthRates)
    ensures |p.yearlyProjections| == years
    ensures forall k :: 0 <= k < years ==>
      p.yearlyProjections[k].year == k + 1 &&
      p.yearlyProjections[k].portfolioValue == Pow(1.0 + p.weightedAnnualReturn, k + 1) &&
      p.yearlyProjections[k].annualReturn == p.weightedAnnualReturn &&
      p.yearlyProjections[k].cumulativeReturn == p.yearlyProjections[k].portfolioValue - 1.0
    ensures p.finalPortfolioValue == Pow(1.0 + p.weightedAnnualReturn, years)
    ensures p.totalProjectedReturn == p.finalPortfolioValue - 1.0
  {
    var r := WeightedReturn(allocation, growthRates);
    var totalProjectedReturn := Pow(1.0 + r, years) - 1.0;
    var rows: seq<ReturnRow> := [];
    var value := 1.0;
    var year := 1;
    while year <= years
      invariant 1 <= year <= years + 1
      invariant |rows| == year - 1
      invariant value == Pow(1.0 + r, year - 1)
      invariant forall k :: 0 <= k < |rows| ==>
        rows[k].year == k + 1 &&
        rows[k].portfolioValue == Pow(1.0 + r, k + 1) &&
        rows[k].annualReturn == r &&
        rows[k].cumulativeReturn == rows[k].portfolioValue - 1.0
    {
      value := value * (1.0 + r);
      rows := rows + [ReturnRow(year, value, r, value - 1.0)];
      year := year + 1;
    }
    p := ReturnProjection(r, totalProjectedReturn, value, rows);
  }

  // ---------------------------------------------------------------------
  // project_portfolio_with_fees

  datatype FeeRow = FeeRow(year: nat, startingValue: real, growth: real, fees: real, endingValue: real, annualReturn: real)

  datatype FeeProjection = FeeProjection(
    weightedAnnualReturn: real,
    finalPortfolioValue: real,
    totalFees: real,
    yearlyProjections: seq<FeeRow>)

  /** The factor by which one year of growth followed by the fee scales a value. */
  function NetFactor(annualReturn: real, feeRate: real): real
  {
    (1.0 + annualReturn) * (1.0 - feeRate)
  }

  /** One year of the fee projection from `startingValue`: growth, then the fee on the grown value. */
  function FeeYearRow(year: nat, startingValue: real, annualReturn: real, feeRate: real): FeeRow
  {
    var growth := startingValue * annualReturn;
    var fees := (startingValue + growth) * feeRate;
    FeeRow(year, startingValue, growth, fees, startingValue + growth - fees, annualReturn)
  }

  /** Growing by r and then charging the fee on the grown value scales by NetFactor. */
  lemma GrowThenCharge(v: real, r: real, fee: real)
    ensures FeeYearRow(0, v, r, fee).endingValue == v * NetFactor(r, fee)
  {
    assert v * NetFactor(r, fee) == v * (1.0 + r) * (1.0 - fee);
    assert v + v * r == v * (1.0 + r);
  }

  /** A year that starts at NetFactor^k is row k of the fee projection. */
  lemma FeeYearIsFeeRow(k: nat, startingValue: real, r: real, fee: real)
    requires startingValue == Pow(NetFactor(r, fee), k)
    ensures IsFeeRow(FeeYearRow(k + 1, startingValue, r, fee), k, r, fee)
  {
    GrowThenCharge(startingValue, r, fee);
  }

  function FeeRowFees(rows: seq<FeeRow>): real
  {
    if |rows| == 0 then 0.0 else FeeRowFees(rows[..|rows| - 1]) + rows[|rows| - 1].fees
  }

  function FeeRowGrowth(rows: seq<FeeRow>): real
  {
    if |rows| == 0 then 0.0 else FeeRowGrowth(rows[..|rows| - 1]) + rows[|rows| - 1].growth
  }

  /**
   * Row k (from 0) of the fee projection of $1: year k + 1, starting at
   * NetFactor^k, growing by r, paying the fee on the grown value and ending
   * at NetFactor^(k + 1).
   */
  predicate IsFeeRow(row: FeeRow, k: nat, r: real, fee: real)
  {
    row.year == k + 1 &&
    row.startingValue == Pow(NetFactor(r, fee), k) &&
    row.growth == row.startingValue * r &&
    row.fees == (row.startingValue + row.growth) * fee &&
    row.endingValue == row.startingValue + row.growth - row.fees &&
    row.endingValue == Pow(NetFactor(r, fee), k + 1) &&
    row.annualReturn == r
  }

  /** One pass of the fee loop: grow the value, then charge the fee on the grown value. */
  method ProjectFeeYear(year: nat, startingValue: real, annualReturn: real, feeRate: real) returns (row: FeeRow)
    ensures row == FeeYearRow(year, startingValue, annualReturn, feeRate)
    ensures row.endingValue == row.startingValue + row.growth - row.fees
    ensures row.endingValue == startingValue * NetFactor(annualReturn, feeRate)
  {
    GrowThenCharge(startingValue, annualReturn, feeRate);
    var growth := startingValue * annualReturn;
    var valueAfterGrowth := startingValue + growth;
    var fees := valueAfterGrowth * feeRate;
    row := FeeRow(year, startingValue, growth, fees, valueAfterGrowth - fees, annualReturn);
  }

  /**
   * Grows $1 each year and then charges the fee on the grown value.  Each
   * row scales its starting value by (1 + r)(1 - fee); the total fee is the
   * sum of the yearly fees, and the final value is $1 plus all growth minus
   * all fees.
   */
  method ProjectPortfolioWithFees(
    allocation: map<AssetClass, real>, growthRates: seq<(AssetClass, real)>, totalFeeRate: real, years: nat)
    returns (p: FeeProjection)
    ensures p.weightedAnnualReturn == WeightedReturn(allocation, growthRates)
    ensures |p.yearlyProjections| == years
    ensures forall k :: 0 <= k < years ==> IsFeeRow(p.yearlyProjections[k], k, p.weightedAnnualReturn, totalFeeRate)
    ensures p.finalPortfolioValue == Pow(NetFactor(p.weightedAnnualReturn, totalFeeRate), years)
    ensures p.totalFees == FeeRowFees(p.yearlyProjections)
    ensures p.finalPortfolioValue == 1.0 + FeeRowGrowth(p.yearlyProjections) - p.totalFees
  {
    var r := WeightedReturn(allocation, growthRates);
    ghost var g := NetFactor(r, totalFeeRate);
    var rows: seq<FeeRow> := [];
    var value := 1.0;
    var totalFees := 0.0;
    var year := 1;
    while year <= years
      invariant 1 <= year <= years + 1
      invariant |rows| == year - 1
      invariant value == Pow(g, year - 1)
      invariant totalFees == FeeRowFees(rows)
      invariant value == 1.0 + FeeRowGrowth(rows) - totalFees
      invariant forall k :: 0 <= k < |rows| ==> IsFeeRow(rows[k], k, r, totalFeeRate)
    {
      var row := ProjectFeeYear(year, value, r, totalFeeRate);
      FeeYearIsFeeRow(|rows|, value, r, totalFeeRate);
      value := row.endingValue;
      totalFees := totalFees + row.fees;
      assert (rows + [row])[..|rows|] == rows;
      rows := rows + [row];
      year := year + 1;
    }
    p := FeeProjection(r, value, totalFees, rows);
  }

  // ---------------------------------------------------------------------
  // project_portfolio_with_taxes

  /** The inputs of one tax-aware projection, with the allocation already reduced to a rate. */
  datatype TaxSettings = TaxSettings(
    annualReturn: real,
    totalFeeRate: real,
    initialValue: real,
    annualCashFlow: real,
    taxRate: real,
    accountType: AccountType)

  /** Growth is taxed each year only in a Brokerage account with a positive rate. */
  predicate TaxedEachYear(s: TaxSettings)
  {
    s.accountType == Brokerage && s.taxRate > 0.0
  }

  /**
   * The rate at which a year's growth is taxed: the tax rate when growth is
   * taxed each year, 0 otherwise (a tax of growth * 0 is the 0 of the code's
   * other branch).
   */
  function GrowthTaxRate(s: TaxSettings): real
  {
    if TaxedEachYear(s) then s.taxRate else 0.0
  }

  datatype TaxRow = TaxRow(
    year: nat,
    startingValue: real,
    cashFlow: real,
    afterCashFlow: real,
    growth: real,
    taxes: real,
    fees: real,
    endingValue: real,
    annualReturn: real,
    deferredTaxLiability: real)

  datatype TaxProjection = TaxProjection(
    weightedAnnualReturn: real,
    finalPortfolioValue: real,
    totalFees: real,
    totalTaxes: real,
    totalCashFlows: real,
    deferredTaxLiability: real,
    accountType: AccountType,
    yearlyProjections: seq<TaxRow>)

  /** One year of the projection from `startingValue`: cash flow, growth, tax, fee. */
  function YearRow(s: TaxSettings, year: nat, startingValue: real): TaxRow
  {
    var afterCashFlow := startingValue + s.annualCashFlow;
    var growth := afterCashFlow * s.annualReturn;
    var afterGrowth := afterCashFlow + growth;
    var taxes := growth * GrowthTaxRate(s);
    var afterTaxes := afterGrowth - taxes;
    var fees := afterTaxes * s.totalFeeRate;
    var endingValue := afterTaxes - fees;
    var deferred := DeferredLiability(s, endingValue);
    TaxRow(year, startingValue, s.annualCashFlow, afterCashFlow, growth, taxes, fees, endingValue,
           s.annualReturn, deferred)
  }

  /**
   * The tax still owed on a balance: the balance times the tax rate in a
   * Traditional IRA, nothing in the other account types.
   */
  function DeferredLiability(s: TaxSettings, balance: real): real
  {
    if s.accountType == TraditionalIRA then balance * s.taxRate else 0.0
  }

  /** The portfolio value after `n` years. */
  function ValueAfter(s: TaxSettings, n: nat): real
  {
    if n == 0 then s.initialValue else YearRow(s, n, ValueAfter(s, n - 1)).endingValue
  }

  lemma ValueAfterStep(s: TaxSettings, n: nat)
    requires n > 0
    ensures ValueAfter(s, n) == YearRow(s, n, ValueAfter(s, n - 1)).endingValue
  {
  }

  /** The rows of the first `n` years. */
  function TaxRows(s: TaxSettings, n: nat): seq<TaxRow>
  {
    if n == 0 then [] else TaxRows(s, n - 1) + [YearRow(s, n, ValueAfter(s, n - 1))]
  }

  /** A money column of a yearly row. */
  datatype Field = StartingValue | CashFlow | Growth | Taxes | Fees | EndingValue | DeferredTaxLiability

  function FieldOf(row: TaxRow, f: Field): real
  {
    match f
    case StartingValue => row.startingValue
    case CashFlow => row.cashFlow
    case Growth => row.growth
    case Taxes => row.taxes
    case Fees => row.fees
    case EndingValue => row.endingValue
    case DeferredTaxLiability => row.deferredTaxLiability
  }

  /** The running sum of one column, in row order. */
  function SumField(rows: seq<TaxRow>, f: Field): real
  {
    if |rows| == 0 then 0.0 else SumField(rows[..|rows| - 1], f) + FieldOf(rows[|rows| - 1], f)
  }

  lemma SumFieldSnoc(rows: seq<TaxRow>, row: TaxRow, f: Field)
    ensures SumField(rows + [row], f) == SumField(rows, f) + FieldOf(row, f)
  {
    assert (rows + [row])[..|rows|] == rows;
  }

  /** The deferred liability left by the last row, 0 when there is none. */
  function LastDeferred(rows: seq<TaxRow>): real
  {
    if |rows| == 0 then 0.0 else rows[|rows| - 1].deferredTaxLiability
  }

  /** What project_portfolio_with_taxes returns. */
  function TaxProjectionOf(s: TaxSettings, years: nat): TaxProjection
  {
    var rows := TaxRows(s, years);
    TaxProjection(s.annualReturn, ValueAfter(s, years), SumField(rows, Fees), SumField(rows, Taxes),
                  SumField(rows, CashFlow), LastDeferred(rows), s.accountType, rows)
  }

  /** The settings project_portfolio_with_taxes builds from its arguments. */
  function SettingsFor(
    allocation: map<AssetClass, real>, growthRates: seq<(AssetClass, real)>, totalFeeRate: real,
    initialValue: real, annualCashFlow: real, taxRate: real, accountType: AccountType): TaxSettings
  {
    TaxSettings(WeightedReturn(allocation, growthRates), totalFeeRate, initialValue, annualCashFlow, taxRate, accountType)
  }

  /**
   * One pass of the year loop: add the cash flow at the start of the year,
   * grow the adjusted balance, take the tax the account type owes, then the
   * fee on what is left.
   */
  method ProjectYear(s: TaxSettings, year: nat, startingValue: real) returns (row: TaxRow)
    ensures row == YearRow(s, year, startingValue)
    ensures row.endingValue == row.afterCashFlow + row.growth - row.taxes - row.fees
    ensures IsTaxRow(s, row)
  {
    YearRowIsTaxRow(s, year, startingValue);
    var isTaxable := s.accountType == Brokerage;
    var isTaxDeferred := s.accountType == TraditionalIRA;
    var afterCashFlow := startingValue + s.annualCashFlow;
    var growth := afterCashFlow * s.annualReturn;
    var afterGrowth := afterCashFlow + growth;
    var taxes := if isTaxable && s.taxRate > 0.0 then growth * s.taxRate else 0.0;
    var afterTaxes := afterGrowth - taxes;
    var fees := afterTaxes * s.totalFeeRate;
    var endingValue := afterTaxes - fees;
    var deferredTaxLiability := if isTaxDeferred then endingValue * s.taxRate else 0.0;
    row := TaxRow(year, startingValue, s.annualCashFlow, afterCashFlow, growth, taxes, fees,
                  endingValue, s.annualReturn, deferredTaxLiability);
  }

  /**
   * The state of the year loop after `n` years: the rows so far, the value
   * they end at, the running totals of three columns and the last deferred
   * liability.
   */
  ghost predicate YearLoopState(
    s: TaxSettings, n: nat, rows: seq<TaxRow>, value: real,
    totalFees: real, totalTaxes: real, totalCashFlows: real, deferredTaxLiability: real)
  {
    && rows == TaxRows(s, n)
    && value == ValueAfter(s, n)
    && totalFees == SumField(rows, Fees)
    && totalTaxes == SumField(rows, Taxes)
    && totalCashFlows == SumField(rows, CashFlow)
    && deferredTaxLiability == LastDeferred(rows)
  }

  /** One more year appends its row and adds its columns to the totals. */
  lemma YearLoopStep(
    s: TaxSettings, n: nat, rows: seq<TaxRow>, value: real,
    totalFees: real, totalTaxes: real, totalCashFlows: real, deferredTaxLiability: real, row: TaxRow)
    requires YearLoopState(s, n, rows, value, totalFees, totalTaxes, totalCashFlows, deferredTaxLiability)
    requires row == YearRow(s, n + 1, value)
    ensures YearLoopState(s, n + 1, rows + [row], row.endingValue, totalFees + row.fees, totalTaxes + row.taxes,
                          totalCashFlows + row.cashFlow, row.deferredTaxLiability)
  {
    SumFieldSnoc(rows, row, Fees);
    SumFieldSnoc(rows, row, Taxes);
    SumFieldSnoc(rows, row, CashFlow);
  }

  /** After the last year the loop state is the projection. */
  lemma YearLoopDone(
    s: TaxSettings, years: nat, rows: seq<TaxRow>, value: real,
    totalFees: real, totalTaxes: real, totalCashFlows: real, deferredTaxLiability: real)
    requires YearLoopState(s, years, rows, value, totalFees, totalTaxes, totalCashFlows, deferredTaxLiability)
    ensures TaxProjection(s.annualReturn, value, totalFees, totalTaxes, totalCashFlows, deferredTaxLiability,
                          s.accountType, rows) == TaxProjectionOf(s, years)
  {
  }

  /**
   * The year loop: each year appends its row, the ending value becomes the
   * next starting value, and the totals are running sums of the rows.
   */
  method ProjectPortfolioWithTaxes(
    allocation: map<AssetClass, real>, growthRates: seq<(AssetClass, real)>, totalFeeRate: real,
    initialValue: real, annualCashFlow: real, taxRate: real, accountType: AccountType, years: nat)
    returns (p: TaxProjection)
    ensures p == TaxProjectionOf(
      SettingsFor(allocation, growthRates, totalFeeRate, initialValue, annualCashFlow, taxRate, accountType), years)
  {
    var s := SettingsFor(allocation, growthRates, totalFeeRate, initialValue, annualCashFlow, taxRate, accountType);
    var rows: seq<TaxRow> := [];
    var value := initialValue;
    var totalFees, totalTaxes, totalCashFlows := 0.0, 0.0, 0.0;
    var deferredTaxLiability := 0.0;
    var year := 1;
    while year <= years
      invariant 1 <= year <= years + 1
      invariant YearLoopState(s, year - 1, rows, value, totalFees, totalTaxes, totalCashFlows, deferredTaxLiability)
    {
      var row := ProjectYear(s, year, value);
      YearLoopStep(s, year - 1, rows, value, totalFees, totalTaxes, totalCashFlows, deferredTaxLiability, row);
      totalCashFlows := totalCashFlows + row.cashFlow;
      totalTaxes := totalTaxes + row.taxes;
      totalFees := totalFees + row.fees;
      value := row.endingValue;
      deferredTaxLiability := row.deferredTaxLiability;
      rows := rows + [row];
      year := year + 1;
    }
    YearLoopDone(s, years, rows, value, totalFees, totalTaxes, totalCashFlows, deferredTaxLiability);
    p := TaxProjection(s.annualReturn, value, totalFees, totalTaxes, totalCashFlows, deferredTaxLiability,
                       accountType, rows);
  }

  // ---------------------------------------------------------------------
  // Properties of the tax-aware projection

  lemma {:induction false} TaxRowsLength(s: TaxSettings, n: nat)
    ensures |TaxRows(s, n)| == n
  {
    if n > 0 {
      TaxRowsLength(s, n - 1);
    }
  }

  /** Row k (from 0) is year k + 1, computed from the value after k years. */
  lemma {:induction false} TaxRowAt(s: TaxSettings, n: nat, k: nat)
    requires k < n
    ensures |TaxRows(s, n)| == n
    ensures TaxRows(s, n)[k] == YearRow(s, k + 1, ValueAfter(s, k))
  {
    TaxRowsLength(s, n);
    if k < n - 1 {
      TaxRowAt(s, n - 1, k);
    }
  }

  /** The step order of one year, with the products named. */
  lemma YearRowBalance(s: TaxSettings, year: nat, v: real)
    ensures var row := YearRow(s, year, v);
      row.year == year &&
      row.startingValue == v &&
      row.cashFlow == s.annualCashFlow &&
      row.afterCashFlow == v + s.annualCashFlow &&
      row.endingValue == row.afterCashFlow + row.growth - row.taxes - row.fees
  {
  }

  /**
   * The projection has exactly `years` rows numbered 1..years; row 1 starts
   * at the initial value, every later row at the previous row's ending
   * value, and the final value is the last ending value (the initial value
   * when there are no rows).
   */
  lemma TaxProjectionChaining(s: TaxSettings, years: nat)
    ensures var p := TaxProjectionOf(s, years);
      |p.yearlyProjections| == years &&
      (forall k :: 0 <= k < years ==> p.yearlyProjections[k].year == k + 1) &&
      (years > 0 ==> p.yearlyProjections[0].startingValue == s.initialValue) &&
      (forall k :: 0 < k < years ==>
         p.yearlyProjections[k].startingValue == p.yearlyProjections[k - 1].endingValue) &&
      p.finalPortfolioValue == (if years == 0 then s.initialValue else p.yearlyProjections[years - 1].endingValue)
  {
    TaxRowsChain(s, years);
  }

  /** Row 0 starts at v0 and every later row at the previous row's ending value. */
  ghost predicate ChainsFrom(rows: seq<TaxRow>, v0: real)
  {
    (|rows| > 0 ==> rows[0].startingValue == v0) &&
    forall k :: 0 < k < |rows| ==> rows[k].startingValue == rows[k - 1].endingValue
  }

  lemma TaxRowsChain(s: TaxSettings, n: nat)
    ensures |TaxRows(s, n)| == n
    ensures forall k :: 0 <= k < n ==> TaxRows(s, n)[k].year == k + 1
    ensures ChainsFrom(TaxRows(s, n), s.initialValue)
    ensures ValueAfter(s, n) == if n == 0 then s.initialValue else TaxRows(s, n)[n - 1].endingValue
  {
    var rows := TaxRows(s, n);
    TaxRowsLength(s, n);
    forall k | 0 <= k < n
      ensures rows[k].year == k + 1 && rows[k].startingValue == ValueAfter(s, k)
      ensures rows[k].endingValue == ValueAfter(s, k + 1)
    {
      TaxRowAt(s, n, k);
      YearRowBalance(s, k + 1, ValueAfter(s, k));
    }
  }

  /**
   * Each row follows the step order cash flow, growth, tax, fee: with
   * A = starting value + cash flow, growth = A * r, the tax depends on the
   * account type, the fee is charged on what remains after tax, and the
   * ending value is A + growth - taxes - fees = (A * (1 + r) - taxes) * (1 - fee).
   * The deferred liability is the ending value times the tax rate in a
   * Traditional IRA and 0 otherwise.
   */
  lemma TaxRowIdentities(s: TaxSettings, years: nat, k: nat)
    requires k < years
    ensures |TaxProjectionOf(s, years).yearlyProjections| == years
    ensures IsTaxRow(s, TaxProjectionOf(s, years).yearlyProjections[k])
  {
    TaxRowAt(s, years, k);
    YearRowIsTaxRow(s, k + 1, ValueAfter(s, k));
  }

  /** The step-order identities of one row, see TaxRowIdentities. */
  ghost predicate IsTaxRow(s: TaxSettings, row: TaxRow)
  {
    var a := row.startingValue + s.annualCashFlow;
    row.cashFlow == s.annualCashFlow &&
    row.afterCashFlow == a &&
    row.growth == a * s.annualReturn &&
    row.taxes == (if s.accountType == Brokerage && s.taxRate > 0.0 then row.growth * s.taxRate else 0.0) &&
    row.fees == (a + row.growth - row.taxes) * s.totalFeeRate &&
    row.endingValue == a + row.growth - row.taxes - row.fees &&
    row.endingValue == (a * (1.0 + s.annualReturn) - row.taxes) * (1.0 - s.totalFeeRate) &&
    row.deferredTaxLiability == (if s.accountType == TraditionalIRA then row.endingValue * s.taxRate else 0.0)
  }

  lemma YearRowIsTaxRow(s: TaxSettings, year: nat, v: real)
    ensures IsTaxRow(s, YearRow(s, year, v))
  {
    var row := YearRow(s, year, v);
    var a := row.afterCashFlow;
    var afterTaxes := a + row.growth - row.taxes;
    assert row.fees == afterTaxes * s.totalFeeRate;
    assert row.endingValue == afterTaxes - row.fees;
    Distribute(afterTaxes, 1.0, s.totalFeeRate);
    assert a + row.growth == a * (1.0 + s.annualReturn);
  }

  /** Roth IRA and Traditional IRA rows (and Brokerage rows at a zero rate) carry no tax. */
  lemma UntaxedAccountsPayNoTax(s: TaxSettings, years: nat)
    requires !TaxedEachYear(s)
    ensures forall k :: 0 <= k < |TaxProjectionOf(s, years).yearlyProjections| ==>
      TaxProjectionOf(s, years).yearlyProjections[k].taxes == 0.0
    ensures TaxProjectionOf(s, years).totalTaxes == 0.0
  {
    var rows := TaxRows(s, years);
    TaxRowsLength(s, years);
    forall k | 0 <= k < years ensures rows[k].taxes == 0.0 {
      TaxRowAt(s, years, k);
    }
    NoTaxesSumToZero(rows);
  }

  lemma {:induction false} NoTaxesSumToZero(rows: seq<TaxRow>)
    requires forall k :: 0 <= k < |rows| ==> rows[k].taxes == 0.0
    ensures SumField(rows, Taxes) == 0.0
  {
    if |rows| > 0 {
      NoTaxesSumToZero(rows[..|rows| - 1]);
    }
  }

  /**
   * As the code is written, Brokerage tax is growth times the rate with no
   * floor at zero: a year that loses money carries a negative tax.
   */
  lemma BrokerageLossGivesNegativeTax(s: TaxSettings, years: nat, k: nat)
    requires s.accountType == Brokerage && s.taxRate > 0.0
    requires k < years
    ensures |TaxProjectionOf(s, years).yearlyProjections| == years
    ensures TaxProjectionOf(s, years).yearlyProjections[k].growth < 0.0 ==>
      TaxProjectionOf(s, years).yearlyProjections[k].taxes < 0.0
  {
    TaxRowAt(s, years, k);
    LossYearTax(s, TaxProjectionOf(s, years).yearlyProjections[k], k + 1, ValueAfter(s, k));
  }

  lemma LossYearTax(s: TaxSettings, row: TaxRow, year: nat, v: real)
    requires s.accountType == Brokerage && s.taxRate > 0.0
    requires row == YearRow(s, year, v)
    ensures row.growth < 0.0 ==> row.taxes < 0.0
  {
    if row.growth < 0.0 {
      assert row.taxes == row.growth * s.taxRate;
    }
  }

  /** The cash flows total `years` times the annual cash flow. */
  lemma TotalCashFlows(s: TaxSettings, years: nat)
    ensures TaxProjectionOf(s, years).totalCashFlows == years as real * s.annualCashFlow
  {
    CashFlowColumn(s, years);
  }

  lemma CashFlowColumn(s: TaxSettings, years: nat)
    ensures SumField(TaxRows(s, years), CashFlow) == years as real * s.annualCashFlow
  {
    TaxRowsLength(s, years);
    CashFlowEachYear(s, years);
    ConstantColumnSum(TaxRows(s, years), s.annualCashFlow, years);
  }

  lemma CashFlowEachYear(s: TaxSettings, years: nat)
    ensures forall k :: 0 <= k < |TaxRows(s, years)| ==> TaxRows(s, years)[k].cashFlow == s.annualCashFlow
  {
    TaxRowsLength(s, years);
    forall k | 0 <= k < years ensures TaxRows(s, years)[k].cashFlow == s.annualCashFlow {
      TaxRowAt(s, years, k);
    }
  }

  lemma {:induction false} ConstantColumnSum(rows: seq<TaxRow>, c: real, n: nat)
    requires |rows| == n
    requires forall k :: 0 <= k < |rows| ==> rows[k].cashFlow == c
    ensures SumField(rows, CashFlow) == n as real * c
  {
    if n > 0 {
      ConstantColumnSum(rows[..n - 1], c, n - 1);
      assert n as real == (n - 1) as real + 1.0;
      Distribute(c, (n - 1) as real, 1.0);
    }
  }

  /**
   * Value is conserved: the final value is the initial value plus all cash
   * flows and all growth, minus all taxes and all fees.
   */
  lemma {:induction false} ValueConservation(s: TaxSettings, years: nat)
    ensures var p := TaxProjectionOf(s, years);
      p.finalPortfolioValue ==
        s.initialValue + p.totalCashFlows + SumField(p.yearlyProjections, Growth) - p.totalTaxes - p.totalFees
  {
    if years > 0 {
      ValueConservation(s, years - 1);
      var prev := TaxRows(s, years - 1);
      var row := YearRow(s, years, ValueAfter(s, years - 1));
      assert TaxRows(s, years) == prev + [row];
      YearRowBalance(s, years, ValueAfter(s, years - 1));
      SumFieldSnoc(prev, row, CashFlow);
      SumFieldSnoc(prev, row, Growth);
      SumFieldSnoc(prev, row, Taxes);
      SumFieldSnoc(prev, row, Fees);
    }
  }

  /** The factor one year scales the value by when there is no cash flow. */
  function YearFactor(s: TaxSettings): real
  {
    (1.0 + s.annualReturn - s.annualReturn * GrowthTaxRate(s)) * (1.0 - s.totalFeeRate)
  }

  /** Without cash flow one year scales its starting value by YearFactor. */
  lemma YearRowScales(s: TaxSettings, year: nat, v: real)
    requires s.annualCashFlow == 0.0
    ensures YearRow(s, year, v).endingValue == v * YearFactor(s)
  {
    var row := YearRow(s, year, v);
    var r, fee := s.annualReturn, s.totalFeeRate;
    var keep := 1.0 + r - r * GrowthTaxRate(s);
    var afterTaxes := v + v * r - row.taxes;
    assert row.endingValue == afterTaxes - afterTaxes * fee;
    assert afterTaxes == v * keep;
    Distribute(afterTaxes, 1.0, fee);
    assert row.endingValue == v * keep * (1.0 - fee);
  }

  /** Multiplying both sides of v == a * p by f. */
  lemma Rescale(v: real, a: real, p: real, f: real, q: real)
    requires v == a * p && q == p * f
    ensures v * f == a * q
  {
  }

  /** `principal * factor^n`: a value compounded n times by the same factor. */
  function Compound(principal: real, factor: real, n: nat): real
  {
    principal * Pow(factor, n)
  }

  /** The row ends at its starting value times f. */
  predicate EndsScaled(row: TaxRow, f: real)
  {
    row.endingValue == row.startingValue * f
  }

  /** Every row ends at its starting value times f. */
  ghost predicate ScaleBy(rows: seq<TaxRow>, f: real)
  {
    forall k :: 0 <= k < |rows| ==> EndsScaled(rows[k], f)
  }

  /**
   * Without cash flow every year scales the value by the same factor, so the
   * value after n years is the initial value compounded n times by YearFactor.
   */
  lemma NoCashFlowClosedForm(s: TaxSettings, n: nat)
    requires s.annualCashFlow == 0.0
    ensures ValueAfter(s, n) == Compound(s.initialValue, YearFactor(s), n)
  {
    if n > 0 {
      TaxRowsChain(s, n);
      TaxRowsScale(s, n);
      GeometricRows(TaxRows(s, n), s.initialValue, YearFactor(s), n - 1);
    }
  }

  lemma TaxRowsScale(s: TaxSettings, n: nat)
    requires s.annualCashFlow == 0.0
    ensures ScaleBy(TaxRows(s, n), YearFactor(s))
  {
    TaxRowsLength(s, n);
    forall k | 0 <= k < n ensures EndsScaled(TaxRows(s, n)[k], YearFactor(s)) {
      TaxRowAt(s, n, k);
      ScaledRow(s, TaxRows(s, n)[k], k + 1, ValueAfter(s, k));
    }
  }

  lemma ScaledRow(s: TaxSettings, row: TaxRow, year: nat, v: real)
    requires s.annualCashFlow == 0.0
    requires row == YearRow(s, year, v)
    ensures EndsScaled(row, YearFactor(s))
  {
    YearRowScales(s, year, v);
  }

  /** Rows that chain from v0 and each scale by f end row k at v0 compounded k + 1 times. */
  lemma {:induction false} GeometricRows(rows: seq<TaxRow>, v0: real, f: real, k: nat)
    requires ChainsFrom(rows, v0) && ScaleBy(rows, f)
    requires k < |rows|
    ensures rows[k].endingValue == Compound(v0, f, k + 1)
  {
    var start := rows[k].startingValue;
    assert EndsScaled(rows[k], f);
    if k == 0 {
      Rescale(start, v0, Pow(f, 0), f, Pow(f, 1));
    } else {
      GeometricRows(rows, v0, f, k - 1);
      Rescale(start, v0, Pow(f, k), f, Pow(f, k + 1));
    }
  }

  /**
   * With no fee, no tax and no cash flow the projection is pure compounding:
   * every year ends at its starting value times (1 + r) ...
   */
  lemma ZeroFrictionCompounding(s: TaxSettings, years: nat)
    requires s.totalFeeRate == 0.0 && s.annualCashFlow == 0.0 && !TaxedEachYear(s)
    ensures var p := TaxProjectionOf(s, years);
      |p.yearlyProjections| == years &&
      forall k :: 0 <= k < years ==>
        p.yearlyProjections[k].endingValue == p.yearlyProjections[k].startingValue * (1.0 + s.annualReturn)
  {
    var rows := TaxRows(s, years);
    TaxRowsLength(s, years);
    TaxRowsScale(s, years);
    FrictionlessFactor(s);
    forall k | 0 <= k < years ensures rows[k].endingValue == rows[k].startingValue * (1.0 + s.annualReturn) {
      assert EndsScaled(rows[k], YearFactor(s));
    }
  }

  /** ... and the final value is the initial value times (1 + r)^years. */
  lemma ZeroFrictionFinalValue(s: TaxSettings, years: nat)
    requires s.totalFeeRate == 0.0 && s.annualCashFlow == 0.0 && !TaxedEachYear(s)
    ensures TaxProjectionOf(s, years).finalPortfolioValue == s.initialValue * Pow(1.0 + s.annualReturn, years)
  {
    FrictionlessFactor(s);
    NoCashFlowClosedForm(s, years);
    assert ValueAfter(s, years) == Compound(s.initialValue, 1.0 + s.annualReturn, years);
  }

  lemma FrictionlessFactor(s: TaxSettings)
    requires s.totalFeeRate == 0.0 && !TaxedEachYear(s)
    ensures YearFactor(s) == 1.0 + s.annualReturn
  {
  }

  lemma UntaxedFactor(s: TaxSettings)
    requires !TaxedEachYear(s)
    ensures YearFactor(s) == NetFactor(s.annualReturn, s.totalFeeRate)
  {
  }

  /**
   * The fee-only projection of $1 is the tax-aware projection of $1 with no
   * cash flow in an account that pays no tax: both end year k + 1 at
   * ((1 + r)(1 - fee))^(k + 1).
   */
  lemma UntaxedProjectionMatchesFeeProjection(s: TaxSettings, years: nat)
    requires s.initialValue == 1.0 && s.annualCashFlow == 0.0 && !TaxedEachYear(s)
    ensures var p := TaxProjectionOf(s, years);
      |p.yearlyProjections| == years &&
      (forall k :: 0 <= k < years ==>
         p.yearlyProjections[k].endingValue == Pow(NetFactor(s.annualReturn, s.totalFeeRate), k + 1))
  {
    var p := TaxProjectionOf(s, years);
    TaxRowsLength(s, years);
    UntaxedFactor(s);
    forall k | 0 <= k < years
      ensures p.yearlyProjections[k].endingValue == Pow(NetFactor(s.annualReturn, s.totalFeeRate), k + 1)
    {
      TaxRowAt(s, years, k);
      ValueAfterStep(s, k + 1);
      NoCashFlowClosedForm(s, k + 1);
      assert ValueAfter(s, k + 1) == Compound(1.0, NetFactor(s.annualReturn, s.totalFeeRate), k + 1);
    }
  }

  /**
   * The returned deferred liability is the final value times the tax rate
   * in a Traditional IRA (recomputed from the balance each year, not
   * accumulated) and 0 in every other account type.
   */
  lemma DeferredLiabilityTracksBalance(s: TaxSettings, years: nat)
    requires years > 0
    ensures var p := TaxProjectionOf(s, years);
      p.deferredTaxLiability == DeferredLiability(s, p.finalPortfolioValue)
  {
    TaxRowAt(s, years, years - 1);
  }

  /**
   * A Brokerage account of $100,000 earning 7% with a 1% fee and a 20% tax
   * rate and no cash flow ends year 1 at $104,544: below the $107,000 of pure
   * growth and above the $104,440 of growth less the whole fee and tax.
   */
  lemma FirstYearBrokerageExample()
    ensures var p := TaxProjectionOf(TaxSettings(0.07, 0.01, 100000.0, 0.0, 0.2, Brokerage), 1);
      |p.yearlyProjections| == 1 &&
      p.yearlyProjections[0].taxes == 1400.0 &&
      p.yearlyProjections[0].fees == 1056.0 &&
      p.yearlyProjections[0].endingValue == 104544.0 &&
      104440.0 < p.yearlyProjections[0].endingValue < 107000.0
  {
    var s := TaxSettings(0.07, 0.01, 100000.0, 0.0, 0.2, Brokerage);
    assert TaxRows(s, 1) == [YearRow(s, 1, 100000.0)];
  }
}
