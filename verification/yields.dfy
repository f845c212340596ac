/** The yield figures of the always-monthly engine in back/core/strategies.py:
    per-property yields and the portfolio's aggregate yields. The fractional
    power `x ** (1 / years)` used for annualised growth is a parameter
    `rpow`, since real exponentiation with a non-integer exponent has no
    definition here. */
module Yields {
  import opened Wrappers
  import opened Numerics
  import opened Sums
  import opened Investment
  import opened Labels
  import opened Config
  import opened Engine
  import opened Operations

  /** `PropertyYields`. */
  datatype PropertyYields = PropertyYields(
    propertyId: nat,
    rentalYield: real,
    netRentalYield: real,
    cashOnCashReturn: real,
    totalReturnYield: real,
    capitalGrowthYield: real)

  /** `PortfolioYields`. */
  datatype PortfolioYields = PortfolioYields(
    period: int,
    rentalYield: real,
    netRentalYield: real,
    cashOnCashReturn: real,
    capitalGrowthYield: real,
    totalReturnYield: real,
    totalAnnualRent: real,
    totalAnnualExpenses: real,
    totalAnnualCashflow: real,
    totalValue: real,
    totalCashInvested: real)

  /** A label the yield code can read: "cash", or one whose text before
      "%_leverage" parses as a number (otherwise `float()` raises). */
  predicate LabelParses(p: Property) {
    p.financingLabel == CashLabel || DecodeLeverage(p.financingLabel).Some?
  }

  /** The rough cash-invested estimate of `_calculate_property_yields`: the
      price for a cash property; for a leveraged one the down payment implied
      by its label plus 8% of the price for transaction costs. */
  function EstimatedCashInvested(p: Property): (c: real)
    requires LabelParses(p)
    ensures p.financingLabel == CashLabel ==> c == p.purchasePrice
    ensures p.financingLabel != CashLabel ==>
      c == p.purchasePrice * (1.08 - DecodeLeverage(p.financingLabel).value)
  {
    if p.financingLabel == CashLabel then p.purchasePrice
    else
      var ltv := DecodeLeverage(p.financingLabel).value;
      p.purchasePrice * (1.0 - ltv) + p.purchasePrice * 0.08
  }

  /** For a leveraged label that reads back as the ratio v (for an engine
      label, the ratio truncated to whole percent, see `EncodedFacts`), the
      estimate is the down payment at v plus 8% of the price. */
  lemma EstimateFromDecoded(p: Property, v: real)
    requires p.financingLabel != CashLabel
    requires DecodeLeverage(p.financingLabel) == Some(v)
    ensures LabelParses(p)
    ensures EstimatedCashInvested(p) == p.purchasePrice * (1.08 - v)
  {
  }

  /** A figure over a value: the ratio when the value is positive, 0
      otherwise (the guarded divisions of both yield routines). */
  function OnValue(amount: real, value: real): (y: real)
    ensures value > 0.0 ==> y * value == amount
    ensures value <= 0.0 ==> y == 0.0
  {
    if value > 0.0 then amount / value else 0.0
  }

  /** Annualised growth of one property: the `rpow(value / price, 1 / years)
      - 1` of the source, or 0 without a positive price. */
  function GrowthYield(p: Property, yearsHeld: real, rpow: (real, real) -> real): real
    requires yearsHeld != 0.0
  {
    if yearsHeld > 0.0 && p.purchasePrice > 0.0 then rpow(p.currentValue / p.purchasePrice, 1.0 / yearsHeld) - 1.0
    else 0.0
  }

  /** Years held for the property yield: months over twelve, or one year for
      a property bought this month. */
  function YearsHeld(p: Property): (y: real)
    ensures y > 0.0
  {
    if p.monthsOwned > 0 then p.monthsOwned as real / 12.0 else 1.0
  }

  /** `_calculate_property_yields`. Rental and net yields are on the current
      value (0 without a positive value); the cash-on-cash return divides the
      annual cash flow after debt service by the estimate of cash invested;
      the total return is the net yield plus annualised growth. */
  function PropertyYieldsOf(p: Property, rpow: (real, real) -> real): (y: PropertyYields)
    requires LabelParses(p)
    ensures y.propertyId == p.id
    ensures p.currentValue > 0.0 ==>
      && y.rentalYield * p.currentValue == p.annualRent
      && y.netRentalYield * p.currentValue == p.annualRent - p.annualExpenses
    ensures p.currentValue <= 0.0 ==> y.rentalYield == 0.0 && y.netRentalYield == 0.0
    ensures EstimatedCashInvested(p) > 0.0 ==>
      y.cashOnCashReturn * EstimatedCashInvested(p) == p.annualRent - p.annualExpenses - 12.0 * p.payment
    ensures EstimatedCashInvested(p) <= 0.0 ==> y.cashOnCashReturn == 0.0
    ensures y.totalReturnYield == y.netRentalYield + y.capitalGrowthYield
    ensures p.purchasePrice <= 0.0 ==> y.capitalGrowthYield == 0.0
  {
    var invested := EstimatedCashInvested(p);
    var annualCashflow := p.annualRent - p.annualExpenses - p.payment * 12.0;
    var value := p.currentValue;
    var rental := OnValue(p.annualRent, value);
    var net := OnValue(p.annualRent - p.annualExpenses, value);
    var coc := OnValue(annualCashflow, invested);
    var growth := GrowthYield(p, YearsHeld(p), rpow);
    PropertyYields(p.id, rental, net, coc, net + growth, growth)
  }

  // ---------------------------------------------------------------------
  // Portfolio yields

  /** A property enters the growth average once it has been held a month and
      has a positive price. */
  predicate InGrowthAverage(p: Property) {
    p.monthsOwned > 0 && p.purchasePrice > 0.0
  }

  function GrowthWeight(p: Property): real {
    if InGrowthAverage(p) then p.currentValue else 0.0
  }

  /** The value-weighted sum of annualised growth over the properties in the
      average. */
  function WeightedGrowth(props: seq<Property>, rpow: (real, real) -> real): real
    decreases |props|
  {
    if |props| == 0 then 0.0
    else
      var p := props[0];
      var term := if InGrowthAverage(p) then GrowthYield(p, p.monthsOwned as real / 12.0, rpow) * p.currentValue
                  else 0.0;
      term + WeightedGrowth(props[1..], rpow)
  }

  /** `_calculate_portfolio_yields`. Rent and expenses are the base
      property's figures times the number of properties; the annual cash
      flow is the base monthly cash flow times twelve times the number of
      properties (the tracked twelve-month figure it prefers is never
      recorded); growth is the value-weighted average over the properties
      held at least a month. */
  function PortfolioYieldsOf(base: PropertyInvestment, props: seq<Property>, period: int,
                             rpow: (real, real) -> real): (y: PortfolioYields)
    requires MonthlyBondPayment(base).Ok?
    ensures y.period == period
    ensures |props| == 0 ==> y == PortfolioYields(period, 0.0, 0.0, 0.0, 0.0, 0.0, 0.0, 0.0, 0.0, 0.0, 0.0)
    ensures |props| > 0 ==>
      && y.totalValue == TotalValue(props)
      && y.totalAnnualRent == |props| as real * AnnualRentalIncome(base.operating)
      && y.totalAnnualExpenses == |props| as real * EngineAnnualExpenses(base.operating)
      && y.totalAnnualCashflow == |props| as real * 12.0 * BaseMonthlyCashflow(base)
      && y.totalCashInvested == TotalCashInvested(props)
  {
    if |props| == 0 then PortfolioYields(period, 0.0, 0.0, 0.0, 0.0, 0.0, 0.0, 0.0, 0.0, 0.0, 0.0)
    else
      var n := |props| as real;
      YieldsFromTotals(period, n * AnnualRentalIncome(base.operating), n * EngineAnnualExpenses(base.operating),
                       n * 12.0 * BaseMonthlyCashflow(base), TotalValue(props), TotalCashInvested(props),
                       WeightedGrowth(props, rpow), SumBy(props, GrowthWeight))
  }

  /** The yields of a portfolio from its totals: each ratio is taken over a
      positive base and is 0 otherwise. */
  function YieldsFromTotals(period: int, rent: real, expenses: real, cashflow: real, value: real,
                            invested: real, weightedGrowth: real, growthWeight: real): (y: PortfolioYields)
    ensures y.period == period
    ensures y.totalAnnualRent == rent && y.totalAnnualExpenses == expenses && y.totalAnnualCashflow == cashflow
    ensures y.totalValue == value && y.totalCashInvested == invested
    ensures value > 0.0 ==> y.rentalYield * value == rent && y.netRentalYield * value == rent - expenses
    ensures invested > 0.0 ==> y.cashOnCashReturn * invested == cashflow
    ensures growthWeight > 0.0 ==> y.capitalGrowthYield * growthWeight == weightedGrowth
    ensures y.totalReturnYield == y.netRentalYield + y.capitalGrowthYield
  {
    var rental := OnValue(rent, value);
    var net := OnValue(rent - expenses, value);
    var coc := OnValue(cashflow, invested);
    var growth := OnValue(weightedGrowth, growthWeight);
    PortfolioYields(period, rental, net, coc, growth, net + growth, rent, expenses, cashflow, value, invested)
  }

  lemma CancelPositive(a: real, b: real, v: real)
    requires v > 0.0 && a * v == b * v
    ensures a == b
  {
    assert (a - b) * v == 0.0;
  }

  /** The portfolio totals of a one-property portfolio are that property's
      figures. */
  lemma SingletonTotals(base: PropertyInvestment, p: Property, period: int,
                        rpow: (real, real) -> real)
    requires MonthlyBondPayment(base).Ok?
    ensures var y := PortfolioYieldsOf(base, [p], period, rpow);
            && y.totalValue == p.currentValue
            && y.totalAnnualRent == AnnualRentalIncome(base.operating)
            && y.totalAnnualExpenses == EngineAnnualExpenses(base.operating)
            && SumBy([p], GrowthWeight) == GrowthWeight(p)
  {
    assert [p][1..] == [];
    assert TotalValue([p]) == ValueOf(p) + TotalValue([]);
  }

  /** For a lone property carrying the base rent and the engine's expenses,
      the portfolio's rental and net rental yields are that property's own. */
  lemma SinglePropertyYieldsAgree(base: PropertyInvestment, p: Property, period: int,
                                  rpow: (real, real) -> real)
    requires MonthlyBondPayment(base).Ok? && LabelParses(p)
    requires p.annualRent == AnnualRentalIncome(base.operating)
    requires p.annualExpenses == EngineAnnualExpenses(base.operating)
    requires p.currentValue > 0.0
    ensures PortfolioYieldsOf(base, [p], period, rpow).rentalYield == PropertyYieldsOf(p, rpow).rentalYield
    ensures PortfolioYieldsOf(base, [p], period, rpow).netRentalYield == PropertyYieldsOf(p, rpow).netRentalYield
  {
    var y := PortfolioYieldsOf(base, [p], period, rpow);
    var q := PropertyYieldsOf(p, rpow);
    SingletonTotals(base, p, period, rpow);
    CancelPositive(y.rentalYield, q.rentalYield, p.currentValue);
    CancelPositive(y.netRentalYield, q.netRentalYield, p.currentValue);
  }

  /** For a lone property held at least a month, the portfolio's growth
      yield is that property's annualised growth. */
  lemma SinglePropertyGrowthAgrees(base: PropertyInvestment, p: Property, period: int,
                                   rpow: (real, real) -> real)
    requires MonthlyBondPayment(base).Ok? && LabelParses(p)
    requires p.currentValue > 0.0 && InGrowthAverage(p)
    ensures PortfolioYieldsOf(base, [p], period, rpow).capitalGrowthYield
         == PropertyYieldsOf(p, rpow).capitalGrowthYield
  {
    var y := PortfolioYieldsOf(base, [p], period, rpow);
    var g := GrowthYield(p, p.monthsOwned as real / 12.0, rpow);
    SingletonTotals(base, p, period, rpow);
    assert [p][1..] == [];
    assert WeightedGrowth([p], rpow) == g * p.currentValue;
    CancelPositive(y.capitalGrowthYield, g, p.currentValue);
  }

  /** A property's rental yield weighted by its value: the numerator of a
      value-weighted average. */
  function ValueWeightedRentalYield(p: Property): real
  {
    OnValue(p.annualRent, p.currentValue) * p.currentValue
  }

  /** The portfolio rental yield is the value-weighted average of the
      property rental yields: times the total value it gives the sum of each
      property's yield times its value, when every property has a positive
      value and carries the base rent. */
  lemma RentalYieldIsValueWeighted(base: PropertyInvestment, props: seq<Property>,
                                   rpow: (real, real) -> real)
    requires MonthlyBondPayment(base).Ok?
    requires forall i :: 0 <= i < |props| ==>
      && props[i].currentValue > 0.0
      && props[i].annualRent == AnnualRentalIncome(base.operating)
    ensures PortfolioYieldsOf(base, props, 0, rpow).rentalYield * TotalValue(props)
         == SumBy(props, ValueWeightedRentalYield)
  {
    WeightedYieldsSum(base, props);
    PortfolioRentalYield(base, props, rpow, SumBy(props, ValueWeightedRentalYield));
  }

  /** Each property's value-weighted yield is its rent, so they sum to the
      portfolio's total rent. */
  lemma WeightedYieldsSum(base: PropertyInvestment, props: seq<Property>)
    requires forall i :: 0 <= i < |props| ==>
      && props[i].currentValue > 0.0
      && props[i].annualRent == AnnualRentalIncome(base.operating)
    ensures SumBy(props, ValueWeightedRentalYield) == |props| as real * AnnualRentalIncome(base.operating)
  {
    forall i | 0 <= i < |props|
      ensures ValueWeightedRentalYield(props[i]) == AnnualRentalIncome(base.operating)
    {
      var p := props[i];
      assert OnValue(p.annualRent, p.currentValue) * p.currentValue == p.annualRent;
    }
    SumByConstant(props, ValueWeightedRentalYield, AnnualRentalIncome(base.operating));
  }

  /** A non-empty portfolio of positively valued properties has a positive
      total value. */
  lemma ValuePositive(props: seq<Property>)
    requires |props| > 0
    requires forall i :: 0 <= i < |props| ==> props[i].currentValue > 0.0
    ensures TotalValue(props) > 0.0
  {
    forall i | 0 <= i < |props[1..]| ensures ValueOf(props[1..][i]) >= 0.0 {
      assert props[1..][i] == props[i + 1];
    }
    SumByNonNegative(props[1..], ValueOf);
    assert TotalValue(props) == props[0].currentValue + TotalValue(props[1..]);
  }

  /** The portfolio rental yield times the total value is the total rent,
      however that total is written. */
  lemma PortfolioRentalYield(base: PropertyInvestment, props: seq<Property>, rpow: (real, real) -> real,
                             totalRent: real)
    requires MonthlyBondPayment(base).Ok?
    requires forall i :: 0 <= i < |props| ==> props[i].currentValue > 0.0
    requires totalRent == |props| as real * AnnualRentalIncome(base.operating)
    ensures PortfolioYieldsOf(base, props, 0, rpow).rentalYield * TotalValue(props) == totalRent
  {
    if |props| > 0 {
      ValuePositive(props);
      var y := PortfolioYieldsOf(base, props, 0, rpow);
      assert y.rentalYield * y.totalValue == y.totalAnnualRent;
    }
  }
}
